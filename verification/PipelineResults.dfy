/** What comes of a load: which DDL it leaves in its row, and which database in the end. */
module PipelineResults {
  import opened Prelude
  import opened VdbNames
  import opened SourcePipeline
  import opened PipelineTheorems

  // ---------------------------------------------------------------- the DDL of a row

  /** A load of the connection ends in this step, and the row is there and free to be written. */
  predicate EndsLoad(s: State, a: Action, id: Id) {
    && a.FinishLoad? && !a.conflict
    && LoadName(a.name) in s.vdbs && s.vdbs[LoadName(a.name)].LoadVdb? && s.vdbs[LoadName(a.name)].id == id
  }

  /** What a load has to show: the schema that it imported, or its error behind the mark of failed loads. */
  function Shown(result: LoadResult): string {
    if result.Loaded? then result.schema else "--failed: " + result.error
  }

  /** What the last load of a connection had to show, since the connection has its row. */
  function LastShown(actions: seq<Action>, id: Id): Option<string> {
    if actions == [] then None
    else
      var front, a := actions[..|actions| - 1], actions[|actions| - 1];
      if id !in Run(Init, front).rows then None
      else if EndsLoad(Run(Init, front), a, id) then Some(Shown(a.result))
      else LastShown(front, id)
  }

  lemma OpKeepsRow(s: State, op: Op, id: Id)
    requires id in RanOp(s, op).rows
    ensures if id in s.rows then RanOp(s, op).rows[id] == s.rows[id] else RanOp(s, op).rows[id].ddl.None?
  {
    if op.Add? {
      var (s1, name) := Prepared(s, op.id, op.held, op.update, op.naming, op.registers);
      if name.Some? && op.deploy.Some? { DeploymentKeepsRows(s1, name.value, AddMode(op.update), op.deploy.value); }
    }
  }

  lemma StepWritesRow(s: State, a: Action, id: Id)
    requires id in Step(s, a).rows
    ensures var ddl := Step(s, a).rows[id].ddl;
            if id !in s.rows then ddl.None?
            else if EndsLoad(s, a, id) then ddl == Some(Shown(a.result))
            else ddl == s.rows[id].ddl
  {
    match a
    case Deploy(name, mode, outcome) => DeploymentKeepsRows(s, name, mode, outcome);
    case FinishLoad(_, _, _) =>
    case RunTask(outcome) =>
      if s.queue != [] {
        var s1 := s.(queue := Rest(s.queue));
        match s.queue[0]
        case Replace(source) => DeploymentKeepsRows(s1, source, ReplaceDdl, outcome);
        case Connections(ops) => if ops != [] { OpKeepsRow(s1, ops[0], id); }
        case _ =>
      }
    case _ =>
  }

  /** Over every run, a row holds what the last load of its connection had to show: the schema, or the error
      behind the mark of failed loads; and nothing before the first one has ended. */
  lemma {:induction false} RowHoldsLastLoad(actions: seq<Action>, id: Id)
    requires id in Run(Init, actions).rows
    ensures Run(Init, actions).rows[id].ddl == LastShown(actions, id)
  {
    var front, a := actions[..|actions| - 1], actions[|actions| - 1];
    if id in Run(Init, front).rows { RowHoldsLastLoad(front, id); }
    StepWritesRow(Run(Init, front), a, id);
  }

  /** Over every run without a harmful step, once nothing is outstanding a connection whose last load failed,
      or that never had one, has no database; and the database of any other shows what that load imported. */
  lemma DatabaseShowsLastLoad(actions: seq<Action>, id: Id)
    requires NeverHarmful(Init, actions) && Outstanding(Run(Init, actions)) == 0 && id in Run(Init, actions).rows
    ensures var s, shown := Run(Init, actions), LastShown(actions, id);
            var v := ConnName(s.rows[id].name);
            if shown.None? || "--failed: " <= shown.value then v !in s.vdbs
            else v in s.vdbs ==> s.vdbs[v].SourceVdb? && s.vdbs[v] == SourceVdb(s.vdbs[v].active, s.rows[id].name, id, shown.value)
  {
    var s := Run(Init, actions);
    CoherenceOverRuns(actions);
    CoherentAtTheEnd(actions);
    SoundOverRuns(actions);
    QuiescentAgreement(s);
    RowHoldsLastLoad(actions, id);
    var v := ConnName(s.rows[id].name);
    NoNameClash(s.rows[id].name, s.rows[id].name);
    if v in s.vdbs { assert s.vdbs[v].SourceVdb? && Current(s, s.vdbs[v]); }
  }

  // ---------------------------------------------------------------- a load takes effect

  /** A replacement is queued, and no deletion behind it. */
  predicate Due(queue: seq<Task>, name: string) {
    queue != [] && (Due(queue[1..], name) || (queue[0] == Replace(name) && Delete(name) !in queue[1..]))
  }

  /** The database that belongs to the DDL is in place: an active one, or none for a failed load. */
  predicate InPlace(s: State, name: string, id: Id, ddl: string) {
    if "--failed: " <= ddl then ConnName(name) !in s.vdbs
    else ConnName(name) in s.vdbs && s.vdbs[ConnName(name)] == SourceVdb(true, name, id, ddl) && Delete(name) !in s.queue
  }

  ghost predicate Ours(s: State, name: string, id: Id, ddl: string) {
    && RowsDistinct(s) && name in s.registered && s.registered[name] == id
    && id in s.rows && s.rows[id] == Row(name, Some(ddl))
    && (Due(s.queue, name) || InPlace(s, name, id, ddl))
  }

  predicate OtherOp(op: Op, name: string, id: Id) {
    op.id != id && op.held != Some(name) && (op.Remove? ==> Printed(op.held) != name)
  }

  /** A step that concerns other connections, or any task of the executor; the server accepts what the
      connection's own replacement deploys. */
  predicate Elsewhere(s: State, a: Action, name: string, id: Id) {
    match a
    case Deploy(n, _, _) => n != name
    case FinishLoad(n, _, _) => !EndsLoad(s, a.(conflict := false), id)
    case RunTask(outcome) =>
      && s.queue != []
      && (s.queue[0] == Replace(name) ==> outcome.BecomesActive?)
      && (s.queue[0].Connections? && s.queue[0].ops != [] ==> OtherOp(s.queue[0].ops[0], name, id))
    case _ => true
  }

  ghost predicate ElsewhereRun(s: State, actions: seq<Action>, name: string, id: Id) {
    actions == [] ||
    var n := |actions| - 1;
    ElsewhereRun(s, actions[..n], name, id) && Elsewhere(Run(s, actions[..n]), actions[n], name, id)
  }

  lemma {:induction false} DueAppend(queue: seq<Task>, t: Task, name: string)
    requires Due(queue, name) && t != Delete(name)
    ensures Due(queue + [t], name)
  {
    assert (queue + [t])[1..] == queue[1..] + [t];
    if Due(queue[1..], name) { DueAppend(queue[1..], t, name); }
  }

  lemma DueAtEnd(queue: seq<Task>, name: string)
    ensures Due(queue + [Replace(name)], name)
  {
    if queue != [] {
      assert (queue + [Replace(name)])[1..] == queue[1..] + [Replace(name)];
      DueAtEnd(queue[1..], name);
    }
  }

  lemma {:induction false} DueIsQueued(queue: seq<Task>, name: string)
    requires Due(queue, name)
    ensures Replace(name) in queue
  {
    if Due(queue[1..], name) { DueIsQueued(queue[1..], name); }
  }

  /** Appending a task other than the deletion, and leaving the database alone, keeps what is due or in place. */
  lemma OursLater(s: State, s': State, name: string, id: Id, ddl: string)
    requires Ours(s, name, id, ddl) && RowsDistinct(s')
    requires name in s'.registered && s'.registered[name] == id && id in s'.rows && s'.rows[id] == s.rows[id]
    requires SameDatabase(s, s', name)
    requires s'.queue == s.queue || exists t :: t != Delete(name) && s'.queue == s.queue + [t]
    ensures Ours(s', name, id, ddl)
  {
    if s'.queue != s.queue && Due(s.queue, name) {
      var t :| t != Delete(name) && s'.queue == s.queue + [t];
      DueAppend(s.queue, t, name);
    }
  }

  predicate SameDatabase(s: State, s': State, name: string) {
    var v := ConnName(name);
    (v in s'.vdbs <==> v in s.vdbs) && (v in s.vdbs ==> s'.vdbs[v] == s.vdbs[v])
  }

  lemma DeployElsewhere(s: State, n: string, mode: Mode, outcome: Outcome, name: string)
    requires n != name
    ensures SameDatabase(s, DeploySource(s, n, mode, outcome), name)
  {
    NoNameClash(name, n);
  }

  lemma DeployKeepsOurs(s: State, n: string, mode: Mode, outcome: Outcome, name: string, id: Id, ddl: string)
    requires Ours(s, name, id, ddl) && n != name
    ensures Ours(DeploySource(s, n, mode, outcome), name, id, ddl)
  {
    DeployElsewhere(s, n, mode, outcome, name);
    OthersAfterDeploy(s, n, mode, outcome);
    DeploymentKeepsRows(s, n, mode, outcome);
    OursLater(s, DeploySource(s, n, mode, outcome), name, id, ddl);
  }

  lemma NamingElsewhere(s: State, op: Op, name: string, id: Id)
    requires RowsDistinct(s) && id in s.rows && s.rows[id].name == name && op.Add? && OtherOp(op, name, id)
    ensures var (s1, n) := NamedRow(s, op.id, op.held, op.naming);
            n != Some(name) && s1 == s.(rows := s1.rows) && RowsDistinct(s1) && id in s1.rows && s1.rows[id] == s.rows[id]
  {
    assert s.rows[id].name in RowNames(s);
    NamingKeepsRowsDistinct(s, op.id, op.held, op.naming);
  }

  lemma PreparationElsewhere(s: State, op: Op, name: string, id: Id, ddl: string)
    requires Ours(s, name, id, ddl) && op.Add? && OtherOp(op, name, id)
    ensures var (s1, n) := Prepared(s, op.id, op.held, op.update, op.naming, op.registers);
            n != Some(name) && s1.vdbs == s.vdbs && s1.queue == s.queue && RowsDistinct(s1)
            && name in s1.registered && s1.registered[name] == id && id in s1.rows && s1.rows[id] == s.rows[id]
  {
    NamingElsewhere(DroppedFirst(s, op.held, op.update), op, name, id);
  }

  lemma RemovalKeepsOurs(s: State, i: Id, held: Option<string>, schemaFails: bool, name: string, id: Id, ddl: string)
    requires Ours(s, name, id, ddl) && OtherOp(Remove(i, held, schemaFails), name, id)
    ensures Ours(RemovedConnection(s, i, held, schemaFails), name, id, ddl)
  {
    OursLater(s, RemovedConnection(s, i, held, schemaFails), name, id, ddl);
  }

  lemma OpKeepsOurs(s: State, op: Op, name: string, id: Id, ddl: string)
    requires Ours(s, name, id, ddl) && OtherOp(op, name, id)
    ensures Ours(RanOp(s, op), name, id, ddl)
  {
    match op
    case Add(i, held, update, naming, registers, deploy) =>
      var (s1, n) := Prepared(s, i, held, update, naming, registers);
      PreparationElsewhere(s, op, name, id, ddl);
      OursLater(s, s1, name, id, ddl);
      if n.Some? && deploy.Some? { DeployKeepsOurs(s1, n.value, AddMode(update), deploy.value, name, id, ddl); }
    case Remove(i, held, schemaFails) => RemovalKeepsOurs(s, i, held, schemaFails, name, id, ddl);
  }

  /** The connection's own replacement puts the database in place. */
  lemma ReplacementPutsInPlace(s: State, name: string, id: Id, ddl: string)
    requires name in s.registered && s.registered[name] == id && id in s.rows && s.rows[id] == Row(name, Some(ddl))
    requires "--failed: " <= ddl || Delete(name) !in s.queue
    ensures InPlace(DeploySource(s, name, ReplaceDdl, BecomesActive), name, id, ddl)
  {}

  lemma RestOfDue(s: State, name: string, id: Id, ddl: string)
    requires Ours(s, name, id, ddl) && s.queue != [] && s.queue[0] != Replace(name)
    ensures Ours(s.(queue := Rest(s.queue)), name, id, ddl)
  {
    if Rest(s.queue) != s.queue[1..] { assert Rest(s.queue)[1..] == s.queue[1..]; }
    assert forall t | t in Rest(s.queue) && !t.Connections? :: t in s.queue;
  }

  lemma RefreshKeepsOurs(s: State, outcome: Outcome, name: string, id: Id, ddl: string)
    requires Ours(s, name, id, ddl) && s.queue != [] && s.queue[0].Refresh?
    ensures Ours(RanTask(s, outcome), name, id, ddl)
  {
    RestOfDue(s, name, id, ddl);
    NoNameClash(name, name);
    OursLater(s.(queue := Rest(s.queue)), RanTask(s, outcome), name, id, ddl);
  }

  lemma DeletionKeepsOurs(s: State, outcome: Outcome, name: string, id: Id, ddl: string)
    requires Ours(s, name, id, ddl) && s.queue != [] && s.queue[0].Delete?
    ensures Ours(RanTask(s, outcome), name, id, ddl)
  {
    var s1 := s.(queue := Rest(s.queue));
    RestOfDue(s, name, id, ddl);
    NoNameClash(name, s.queue[0].source);
    if s.queue[0].source != name { OursLater(s1, RanTask(s, outcome), name, id, ddl); }
  }

  lemma TaskKeepsOurs(s: State, outcome: Outcome, name: string, id: Id, ddl: string)
    requires Ours(s, name, id, ddl) && Elsewhere(s, RunTask(outcome), name, id)
    ensures Ours(RanTask(s, outcome), name, id, ddl)
  {
    var s1 := s.(queue := Rest(s.queue));
    match s.queue[0]
    case Refresh => RefreshKeepsOurs(s, outcome, name, id, ddl);
    case Delete(_) => DeletionKeepsOurs(s, outcome, name, id, ddl);
    case Replace(source) =>
      if source == name {
        OwnReplacementKeepsOurs(s, name, id, ddl);
      } else {
        RestOfDue(s, name, id, ddl);
        DeployKeepsOurs(s1, source, ReplaceDdl, outcome, name, id, ddl);
      }
    case Connections(ops) =>
      RestOfDue(s, name, id, ddl);
      if ops != [] { OpKeepsOurs(s1, ops[0], name, id, ddl); }
  }

  lemma OwnReplacementKeepsOurs(s: State, name: string, id: Id, ddl: string)
    requires Ours(s, name, id, ddl) && s.queue != [] && s.queue[0] == Replace(name)
    ensures Ours(RanTask(s, BecomesActive), name, id, ddl)
  {
    var s1 := s.(queue := Rest(s.queue));
    DeploymentKeepsRows(s1, name, ReplaceDdl, BecomesActive);
    DeployEffect(s1, name, ReplaceDdl, BecomesActive);
    if Due(s1.queue, name) {
      DueAppend(s1.queue, Refresh, name);
    } else {
      ReplacementPutsInPlace(s1, name, id, ddl);
    }
  }

  lemma LoadKeepsOurs(s: State, n: string, result: LoadResult, conflict: bool, name: string, id: Id, ddl: string)
    requires Ours(s, name, id, ddl) && Elsewhere(s, FinishLoad(n, result, conflict), name, id)
    ensures Ours(FinishedLoad(s, n, result, conflict), name, id, ddl)
  {
    NoNameClash(name, n);
    OursLater(s, FinishedLoad(s, n, result, conflict), name, id, ddl);
  }

  lemma StepKeepsOurs(s: State, a: Action, name: string, id: Id, ddl: string)
    requires Ours(s, name, id, ddl) && Elsewhere(s, a, name, id)
    ensures Ours(Step(s, a), name, id, ddl)
  {
    match a
    case Arrive(ops) => OursLater(s, Step(s, a), name, id, ddl);
    case Deploy(n, mode, outcome) => DeployKeepsOurs(s, n, mode, outcome, name, id, ddl);
    case FinishLoad(n, result, conflict) => LoadKeepsOurs(s, n, result, conflict, name, id, ddl);
    case DeployPreview(dv) =>
      NoNameClash(name, dv);
      KindsNeverCollide(name, dv);
      OursLater(s, Step(s, a), name, id, ddl);
    case RemovePreview(dv) =>
      KindsNeverCollide(name, dv);
      OursLater(s, Step(s, a), name, id, ddl);
    case RunTask(outcome) => TaskKeepsOurs(s, outcome, name, id, ddl);
  }

  lemma {:induction false} RunKeepsOurs(s: State, actions: seq<Action>, name: string, id: Id, ddl: string)
    requires Sound(s) && Ours(s, name, id, ddl) && ElsewhereRun(s, actions, name, id)
    ensures Sound(Run(s, actions)) && Ours(Run(s, actions), name, id, ddl)
  {
    if actions != [] {
      var n := |actions| - 1;
      RunKeepsOurs(s, actions[..n], name, id, ddl);
      SoundStep(Run(s, actions[..n]), actions[n]);
      StepKeepsOurs(Run(s, actions[..n]), actions[n], name, id, ddl);
    }
  }

  /** What the row shows once a load has ended: its result, or what it showed before if the row could not be
      written. */
  function ShownAfter(s: State, id: Id, result: LoadResult, conflict: bool): Option<string>
    requires id in s.rows
  {
    if conflict then s.rows[id].ddl else Some(Shown(result))
  }

  /** Over every run: when the load of a registered connection ends with something new, or in a conflict, then,
      whatever else happens that does not concern this connection, its row keeps what it shows now; and as soon
      as its replacement is no longer queued, a failed load has left no database under its name, and any other
      an active database with exactly the DDL of the row, which the master imports unless it is about to be
      refreshed. */
  lemma LoadTakesEffect(before: seq<Action>, name: string, id: Id, result: LoadResult, conflict: bool, actions: seq<Action>)
    requires var s := Run(Init, before);
             && LoadName(name) in s.vdbs && s.vdbs[LoadName(name)] == LoadVdb(name, id)
             && name in s.registered && s.registered[name] == id
             && id in s.rows && s.rows[id].name == name
             && (conflict || s.rows[id].ddl != Some(Shown(result)))
             && ShownAfter(s, id, result, conflict).Some?
             && ElsewhereRun(Step(s, FinishLoad(name, result, conflict)), actions, name, id)
    ensures var ddl := ShownAfter(Run(Init, before), id, result, conflict).value;
            var s := Run(Step(Run(Init, before), FinishLoad(name, result, conflict)), actions);
            && id in s.rows && s.rows[id] == Row(name, Some(ddl))
            && (Replace(name) !in s.queue ==>
                  var v := ConnName(name);
                  if "--failed: " <= ddl then v !in s.vdbs
                  else
                    && v in s.vdbs && s.vdbs[v] == SourceVdb(true, name, id, ddl)
                    && (Refresh !in s.queue ==>
                          PREVIEW_VDB in s.vdbs && s.vdbs[PREVIEW_VDB].MasterVdb? && v in s.vdbs[PREVIEW_VDB].imports))
  {
    var s := Run(Init, before);
    var ddl := ShownAfter(s, id, result, conflict).value;
    var s1 := Step(s, FinishLoad(name, result, conflict));
    SoundOverRuns(before);
    SoundStep(s, FinishLoad(name, result, conflict));
    DueAtEnd(s.queue, name);
    RunKeepsOurs(s1, actions, name, id, ddl);
    var s2 := Run(s1, actions);
    if Replace(name) !in s2.queue {
      if Due(s2.queue, name) { DueIsQueued(s2.queue, name); }
      NoNameClash(name, name);
    }
  }

  /** A load that ends with what its row shows already, or whose connection has been deleted meanwhile, leaves
      nothing behind and asks for nothing. */
  lemma LoadWithoutNews(s: State, name: string, result: LoadResult)
    requires LoadName(name) in s.vdbs && s.vdbs[LoadName(name)].LoadVdb?
    requires var id := s.vdbs[LoadName(name)].id; id in s.rows ==> s.rows[id].ddl == Some(Shown(result))
    ensures Step(s, FinishLoad(name, result, false)) == s.(vdbs := s.vdbs - {LoadName(name)})
  {}
}
