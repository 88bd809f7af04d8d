/** Where lost coherence comes from: the pipeline stays orderly exactly as long as every connection is handled
    properly, and an orderly pipeline is coherent. */
module PipelineOrder {
  import opened Prelude
  import opened VdbNames
  import opened SourcePipeline
  import opened PipelineTheorems

  /** A linked database is coherent, and stays so whatever happens to registrations. */
  lemma LinkedIsCoherent(s: State)
    requires Linked(s)
    ensures Coherent(s)
  {
    forall v | v in s.vdbs && s.vdbs[v].SourceVdb? ensures CoherentVdb(s, s.vdbs[v]) { assert LinkedVdb(s, s.vdbs[v]); }
  }

  lemma LinkedLater(s: State, s': State, vdb: Vdb)
    requires vdb.SourceVdb? && LinkedVdb(s, vdb)
    requires forall t | t in s.queue && (t.Replace? || t.Delete?) :: t in s'.queue
    requires vdb.id in s.rows ==> (vdb.id in s'.rows && s'.rows[vdb.id] == s.rows[vdb.id])
    requires vdb.source in s.registered ==> (vdb.source in s'.registered && s'.registered[vdb.source] == s.registered[vdb.source])
    ensures LinkedVdb(s', vdb)
  {}

  /** The database that is linked under a name belongs to the row of that name. */
  lemma DeployedIsLinked(s: State, name: string)
    requires KindsAgree(s.vdbs) && Linked(s) && Deployed(s, name)
    ensures var vdb := s.vdbs[ConnName(name)];
            vdb.source == name && LinkedVdb(s, vdb) && name in s.registered && s.registered[name] == vdb.id
            && vdb.id in s.rows && s.rows[vdb.id].name == name
  {
    AtItsName(s, ConnName(name));
  }

  // ---------------------------------------------------------------- deployments

  lemma LoadsAfterDeploy(s: State, name: string, mode: Mode, outcome: Outcome)
    requires NamesAgree(s)
    ensures NamesAgree(DeploySource(s, name, mode, outcome))
  {
    DeploymentKeepsRows(s, name, mode, outcome);
  }

  lemma DeployKeepsLinked(s: State, name: string, mode: Mode, outcome: Outcome)
    requires NamesAgree(s) && Linked(s)
    ensures Linked(DeploySource(s, name, mode, outcome))
  {
    var s' := DeploySource(s, name, mode, outcome);
    DeployEffect(s, name, mode, outcome);
    forall v | v in s'.vdbs && s'.vdbs[v].SourceVdb? && !(v == ConnName(name) && Puts(s, name, mode, outcome))
      ensures LinkedVdb(s', s'.vdbs[v])
    {
      LinkedLater(s, s', s.vdbs[v]);
    }
  }

  /** A replacement needs no more than what it replaces to have been linked. */
  lemma ReplaceKeepsOrder(s: State, outcome: Outcome)
    requires Orderly(s) && s.queue != [] && s.queue[0].Replace?
    ensures NamesAgree(RanTask(s, outcome)) && Linked(RanTask(s, outcome))
  {
    var source := s.queue[0].source;
    var s1 := s.(queue := s.queue[1..]);
    var s' := RanTask(s, outcome);
    assert s.queue == [Replace(source)] + s1.queue;
    LoadsAfterDeploy(s1, source, ReplaceDdl, outcome);
    DeployEffect(s1, source, ReplaceDdl, outcome);
    forall v | v in s'.vdbs && s'.vdbs[v].SourceVdb? ensures LinkedVdb(s', s'.vdbs[v]) {
      if v != ConnName(source) {
        AtItsName(s, v);
        assert LinkedVdb(s, s.vdbs[v]);
      } else if !Puts(s1, source, ReplaceDdl, outcome) {
        AtItsName(s, v);
        assert LinkedVdb(s, s.vdbs[v]);
      }
    }
  }

  lemma LoadKeepsOrder(s: State, name: string, result: LoadResult, conflict: bool)
    requires Orderly(s)
    ensures NamesAgree(FinishedLoad(s, name, result, conflict)) && Linked(FinishedLoad(s, name, result, conflict))
  {
    var s' := FinishedLoad(s, name, result, conflict);
    if LoadName(name) in s.vdbs && s.vdbs[LoadName(name)].LoadVdb? {
      var load := s.vdbs[LoadName(name)];
      assert forall t | t in s.queue :: t in s'.queue;
      if s'.rows != s.rows { assert s'.queue[|s.queue|] == Replace(load.source); }
      forall v | v in s'.vdbs && s'.vdbs[v].SourceVdb? ensures LinkedVdb(s', s'.vdbs[v]) {
        assert LinkedVdb(s, s.vdbs[v]);
      }
    }
  }

  // ---------------------------------------------------------------- removals

  lemma RemovalOrder(s: State, id: Id, held: Option<string>, schemaFails: bool)
    requires Orderly(s)
    ensures NamesAgree(RemovedConnection(s, id, held, schemaFails))
    ensures Linked(RemovedConnection(s, id, held, schemaFails)) <==> ProperRemoval(s, id, held, schemaFails)
  {
    var s' := RemovedConnection(s, id, held, schemaFails);
    var deletes := !schemaFails && id in s.rows;
    assert s'.vdbs == s.vdbs && s'.queue == if deletes then s.queue + [Delete(Printed(held))] else s.queue;
    forall v | v in s.vdbs && s.vdbs[v].SourceVdb?
      ensures LinkedVdb(s', s.vdbs[v]) <==>
              !(deletes && v == ConnName(s.rows[id].name) && Printed(held) != s.rows[id].name && Deployed(s, s.rows[id].name))
              && !(held.Some? && v == ConnName(held.value) && !deletes && Deployed(s, held.value))
    {
      RemovalAt(s, id, held, schemaFails, v);
    }
  }

  lemma RemovalAt(s: State, id: Id, held: Option<string>, schemaFails: bool, v: string)
    requires Orderly(s) && v in s.vdbs && s.vdbs[v].SourceVdb?
    ensures var deletes := !schemaFails && id in s.rows;
            LinkedVdb(RemovedConnection(s, id, held, schemaFails), s.vdbs[v]) <==>
            !(deletes && v == ConnName(s.rows[id].name) && Printed(held) != s.rows[id].name && Deployed(s, s.rows[id].name))
            && !(held.Some? && v == ConnName(held.value) && !deletes && Deployed(s, held.value))
  {
    AtItsName(s, v);
    var vdb := s.vdbs[v];
    assert LinkedVdb(s, vdb);
    if Delete(vdb.source) !in s.queue { assert Deployed(s, vdb.source); }
  }

  // ---------------------------------------------------------------- additions

  lemma PreparedOrder(s: State, id: Id, held: Option<string>, update: bool, naming: Option<string>, registers: bool)
    requires Orderly(s)
    ensures var s1 := Prepared(s, id, held, update, naming, registers).0;
            NamesAgree(s1) && Linked(s1) <==> ProperAddition(s, id, held, update, naming, registers)
  {
    if held.Some? {
      HeldOrder(s, id, held.value, update, naming, registers);
    } else if id in s.rows {
      RowOrder(s, id, update, naming, registers);
    } else {
      NamingOrder(s, id, update, naming, registers);
    }
  }

  lemma HeldOrder(s: State, id: Id, name: string, update: bool, naming: Option<string>, registers: bool)
    requires Orderly(s)
    ensures var s1 := Prepared(s, id, Some(name), update, naming, registers).0;
            NamesAgree(s1) && Linked(s1) <==> ProperAddition(s, id, Some(name), update, naming, registers)
  {
    var s1 := Prepared(s, id, Some(name), update, naming, registers).0;
    assert s1.vdbs == s.vdbs && s1.rows == s.rows && s1.queue == s.queue;
    if Deployed(s, name) { DeployedIsLinked(s, name); }
    forall v | v in s.vdbs && s.vdbs[v].SourceVdb?
      ensures LinkedVdb(s1, s.vdbs[v]) <==>
              !(v == ConnName(name) && Deployed(s, name)) || (name in s1.registered && s1.registered[name] == s.registered[name])
    {
      AtItsName(s, v);
      assert LinkedVdb(s, s.vdbs[v]);
      if s.vdbs[v].source != name { LinkedLater(s, s1, s.vdbs[v]); }
    }
    assert forall n | n in s1.registered && n != name :: n in s.registered && s1.registered[n] == s.registered[n];
  }

  lemma RowOrder(s: State, id: Id, update: bool, naming: Option<string>, registers: bool)
    requires Orderly(s) && id in s.rows
    ensures var s1 := Prepared(s, id, None, update, naming, registers).0; NamesAgree(s1) && Linked(s1)
  {
    var s1 := Prepared(s, id, None, update, naming, registers).0;
    forall v | v in s.vdbs && s.vdbs[v].SourceVdb? ensures LinkedVdb(s1, s.vdbs[v]) { LinkedLater(s, s1, s.vdbs[v]); }
  }

  lemma NamingOrder(s: State, id: Id, update: bool, naming: Option<string>, registers: bool)
    requires Orderly(s) && id !in s.rows
    ensures var s1 := Prepared(s, id, None, update, naming, registers).0;
            && Linked(s1) && (NamesAgree(s1) <==> ProperAddition(s, id, None, update, naming, registers))
  {
    var s1 := Prepared(s, id, None, update, naming, registers).0;
    forall v | v in s.vdbs && s.vdbs[v].SourceVdb? ensures LinkedVdb(s1, s.vdbs[v]) { LinkedLater(s, s1, s.vdbs[v]); }
    if naming.Some? && naming.value !in RowNames(s) {
      var name := naming.value;
      assert s1.rows == s.rows[id := Row(name, None)] && s1.vdbs == s.vdbs;
      forall n | n in s1.registered ensures n == name || (n in s.registered && s1.registered[n] == s.registered[n]) {}
      forall n | n in s.registered ensures n in s1.registered && s1.registered[n] == s.registered[n] {}
      if name in s.registered && s.registered[name] in s.rows { assert s.rows[s.registered[name]].name in RowNames(s); }
    }
  }

  /** Names that have come apart before a deployment are still apart after it. */
  lemma DisorderStays(s: State, name: string, mode: Mode, outcome: Outcome)
    requires KindsAgree(s.vdbs) && name in s.registered && s.registered[name] in s.rows
    requires mode.RefreshDdl? || s.rows[s.registered[name]].ddl.None?
    requires forall v | v in s.vdbs && s.vdbs[v].LoadVdb? && s.vdbs[v].id in s.rows && s.vdbs[v].source == name ::
               s.rows[s.vdbs[v].id].name == name
    ensures NamesAgree(DeploySource(s, name, mode, outcome)) ==> NamesAgree(s)
    ensures Linked(DeploySource(s, name, mode, outcome)) ==> Linked(s)
  {
    var s' := DeploySource(s, name, mode, outcome);
    NoNameClash(name, name);
    forall v | v in s.vdbs && v != LoadName(name) ensures v in s'.vdbs && s'.vdbs[v] == s.vdbs[v] {}
    assert s'.queue == s.queue;
    if LoadName(name) in s.vdbs { assert RightName(LoadName(name), s.vdbs[LoadName(name)]); OnlyLoadsAtLoadNames(s, name); }
    if Linked(s') {
      forall v | v in s.vdbs && s.vdbs[v].SourceVdb? ensures LinkedVdb(s, s.vdbs[v]) {
        assert v != LoadName(name) && LinkedVdb(s', s'.vdbs[v]);
      }
    }
  }

  lemma OnlyLoadsAtLoadNames(s: State, name: string)
    requires KindsAgree(s.vdbs) && LoadName(name) in s.vdbs
    ensures s.vdbs[LoadName(name)].LoadVdb? && s.vdbs[LoadName(name)].source == name
  {
    var vdb := s.vdbs[LoadName(name)];
    assert RightName(LoadName(name), vdb);
    NoNameClash(name, name);
    if vdb.SourceVdb? { NoNameClash(vdb.source, name); }
    if vdb.LoadVdb? { NoNameClash(vdb.source, name); }
  }

  lemma RegisteredDisorderStays(s: State, name: string, mode: Mode, outcome: Outcome, n: string)
    requires n in s.registered && s.registered[n] in s.rows && s.rows[s.registered[n]].name != n
    ensures !NamesAgree(DeploySource(s, name, mode, outcome))
  {
    DeploymentKeepsRows(s, name, mode, outcome);
  }

  /** An addition keeps order exactly when it is proper; the deployment at its end makes no difference. */
  lemma AdditionOrder(s: State, id: Id, held: Option<string>, update: bool, naming: Option<string>, registers: bool,
                      deploy: Option<Outcome>)
    requires Orderly(s)
    ensures var s' := AddedConnection(s, id, held, update, naming, registers, deploy);
            NamesAgree(s') && Linked(s') <==> ProperAddition(s, id, held, update, naming, registers)
  {
    var (s1, name) := Prepared(s, id, held, update, naming, registers);
    PreparedOrder(s, id, held, update, naming, registers);
    if name.Some? && deploy.Some? {
      if ProperAddition(s, id, held, update, naming, registers) {
        LoadsAfterDeploy(s1, name.value, AddMode(update), deploy.value);
        DeployKeepsLinked(s1, name.value, AddMode(update), deploy.value);
      } else {
        ImproperStays(s, id, held, update, naming, registers, deploy.value);
      }
    }
  }

  lemma ImproperStays(s: State, id: Id, held: Option<string>, update: bool, naming: Option<string>, registers: bool, deploy: Outcome)
    requires Orderly(s) && !ProperAddition(s, id, held, update, naming, registers)
    requires Prepared(s, id, held, update, naming, registers).1.Some?
    ensures var (s1, name) := Prepared(s, id, held, update, naming, registers);
            var s' := DeploySource(s1, name.value, AddMode(update), deploy);
            !(NamesAgree(s') && Linked(s'))
  {
    var (s1, name) := Prepared(s, id, held, update, naming, registers);
    PreparedOrder(s, id, held, update, naming, registers);
    var n := name.value;
    if held.Some? {
      if update && s1.registered[n] in s1.rows {
        DisorderStays(s1, n, RefreshDdl, deploy);
      } else if !update {
        RegisteredDisorderStays(s1, n, MakeLive, deploy, n);
      }
    } else if s1.registered[n] in s1.rows {
      NewRowIsUnloaded(s, id, update, naming, registers);
      DisorderStays(s1, n, AddMode(update), deploy);
    }
  }

  lemma NewRowIsUnloaded(s: State, id: Id, update: bool, naming: Option<string>, registers: bool)
    requires Orderly(s) && !ProperAddition(s, id, None, update, naming, registers)
    requires var (s1, name) := Prepared(s, id, None, update, naming, registers);
             name.Some? && s1.registered[name.value] in s1.rows
    ensures var (s1, name) := Prepared(s, id, None, update, naming, registers);
            && s1.rows[s1.registered[name.value]].ddl.None?
            && forall v | v in s1.vdbs && s1.vdbs[v].LoadVdb? && s1.vdbs[v].id in s1.rows && s1.vdbs[v].source == name.value ::
                 s1.rows[s1.vdbs[v].id].name == name.value
  {
    var (s1, name) := Prepared(s, id, None, update, naming, registers);
    assert s1.rows == s.rows[id := Row(name.value, None)];
  }

  // ---------------------------------------------------------------- all steps, all runs

  lemma OrderAfterRest(s: State)
    requires Orderly(s) && s.queue != [] && (s.queue[0].Connections? || s.queue[0].Refresh?)
    ensures var s1 := s.(queue := Rest(s.queue)); NamesAgree(s1) && Linked(s1)
  {
    var s1 := s.(queue := Rest(s.queue));
    RestKeepsAll(s.queue);
    forall v | v in s.vdbs && s.vdbs[v].SourceVdb? ensures LinkedVdb(s1, s.vdbs[v]) { LinkedLater(s, s1, s.vdbs[v]); }
  }

  lemma RefreshKeepsOrder(s: State, outcome: Outcome)
    requires Orderly(s) && s.queue != [] && (s.queue[0].Refresh? || s.queue[0].Delete?)
    ensures NamesAgree(RanTask(s, outcome)) && Linked(RanTask(s, outcome))
  {
    var s' := RanTask(s, outcome);
    assert s.queue == [s.queue[0]] + s'.queue;
    forall v | v in s'.vdbs && s'.vdbs[v].SourceVdb? ensures LinkedVdb(s', s'.vdbs[v]) {
      AtItsName(s, v);
      assert LinkedVdb(s, s.vdbs[v]);
    }
  }

  /** One step keeps order exactly when it handles its connection properly. */
  lemma OrderIsExact(s: State, a: Action)
    requires Orderly(s)
    ensures Orderly(Step(s, a)) <==> Proper(s, a)
  {
    SoundStep(s, a);
    var s' := Step(s, a);
    match a
    case Deploy(name, mode, outcome) =>
      LoadsAfterDeploy(s, name, mode, outcome);
      DeployKeepsLinked(s, name, mode, outcome);
    case FinishLoad(name, result, conflict) => LoadKeepsOrder(s, name, result, conflict);
    case RunTask(outcome) => TaskOrder(s, outcome);
    case _ =>
      assert forall t | t in s.queue :: t in s'.queue;
      forall v | v in s'.vdbs && s'.vdbs[v].SourceVdb? ensures LinkedVdb(s', s'.vdbs[v]) { LinkedLater(s, s', s.vdbs[v]); }
  }

  lemma TaskOrder(s: State, outcome: Outcome)
    requires Orderly(s)
    ensures NamesAgree(RanTask(s, outcome)) && Linked(RanTask(s, outcome)) <==> Proper(s, RunTask(outcome))
  {
    if s.queue != [] {
      match s.queue[0]
      case Replace(_) => ReplaceKeepsOrder(s, outcome);
      case Connections(ops) =>
        OrderAfterRest(s);
        SoundAfterRest(s);
        if ops != [] { OpOrder(s.(queue := Rest(s.queue)), ops[0]); }
      case _ => RefreshKeepsOrder(s, outcome);
    }
  }

  lemma OpOrder(s: State, op: Op)
    requires Orderly(s)
    ensures NamesAgree(RanOp(s, op)) && Linked(RanOp(s, op)) <==> ProperOp(s, op)
  {
    match op
    case Add(id, held, update, naming, registers, deploy) => AdditionOrder(s, id, held, update, naming, registers, deploy);
    case Remove(id, held, schemaFails) => RemovalOrder(s, id, held, schemaFails);
  }

  lemma InitIsOrderly()
    ensures Orderly(Init)
  {
    NoNameClash("", "");
  }

  /** Over every run: the pipeline is orderly in all states if and only if every connection is handled properly;
      and while it is orderly it is coherent. */
  lemma {:induction false} OrderOverRuns(actions: seq<Action>)
    ensures AlwaysOrderly(Init, actions) <==> AlwaysProper(Init, actions)
    ensures AlwaysProper(Init, actions) ==> AlwaysCoherent(Init, actions)
  {
    InitIsOrderly();
    if actions != [] {
      var n := |actions| - 1;
      OrderOverRuns(actions[..n]);
      if AlwaysOrderly(Init, actions[..n]) {
        OrderAtTheEnd(actions[..n]);
        OrderIsExact(Run(Init, actions[..n]), actions[n]);
        if Proper(Run(Init, actions[..n]), actions[n]) { LinkedIsCoherent(Run(Init, actions)); }
      }
    } else {
      LinkedIsCoherent(Init);
    }
  }

  lemma OrderAtTheEnd(actions: seq<Action>)
    requires AlwaysOrderly(Init, actions)
    ensures Orderly(Run(Init, actions))
  {}

  /** For an object that goes by the name of its row, an addition is improper exactly when it is an update that
      drops the data source of a deployed database and cannot register it again; a removal exactly when it
      drops the data source of a deployed database but fails to delete the row. */
  lemma NamedOpsAreProper(s: State, op: Op)
    requires Orderly(s) && op.id in s.rows && op.held == Some(s.rows[op.id].name)
    ensures ProperOp(s, op) <==>
            match op
            case Add(_, held, update, _, registers, _) => !(update && !registers && Deployed(s, held.value))
            case Remove(_, held, schemaFails) => !(schemaFails && Deployed(s, held.value))
  {
    if Deployed(s, op.held.value) { DeployedIsLinked(s, op.held.value); }
  }

  ghost predicate RowName(s: State, op: Op) { op.id in s.rows && op.held == Some(s.rows[op.id].name) }

  ghost predicate Fails(op: Op) {
    match op
    case Add(_, _, update, _, registers, _) => update && !registers
    case Remove(_, _, schemaFails) => schemaFails
  }

  /** The connections that a run handles go by the names of their rows and do not fail half-way, or have no name
      yet and leave nothing behind under another one. */
  ghost predicate Unfailing(s: State, actions: seq<Action>) {
    actions == [] ||
    var n := |actions| - 1;
    var before := Run(s, actions[..n]);
    && Unfailing(s, actions[..n])
    && (actions[n].RunTask? && before.queue != [] && before.queue[0].Connections? && before.queue[0].ops != [] ==>
          var op := before.queue[0].ops[0];
          (RowName(before, op) && !Fails(op)) || (op.held.None? && Proper(before, actions[n])))
  }

  /** Without half-failed updates and removals, coherence holds in every state. */
  lemma {:induction false} UnfailingIsCoherent(actions: seq<Action>)
    requires Unfailing(Init, actions)
    ensures AlwaysCoherent(Init, actions) && AlwaysProper(Init, actions)
  {
    if actions != [] {
      var n := |actions| - 1;
      UnfailingIsCoherent(actions[..n]);
      OrderOverRuns(actions[..n]);
      OrderAtTheEnd(actions[..n]);
      var before := Run(Init, actions[..n]);
      if actions[n].RunTask? && before.queue != [] && before.queue[0].Connections? && before.queue[0].ops != [] {
        OrderAfterRest(before);
        SoundAfterRest(before);
        if RowName(before, before.queue[0].ops[0]) {
          NamedOpsAreProper(before.(queue := Rest(before.queue)), before.queue[0].ops[0]);
        }
      }
      OrderOverRuns(actions);
    } else {
      OrderOverRuns(actions);
    }
  }
}
