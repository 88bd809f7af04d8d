/** What the single operations of the pipeline do, part by part of the state. */
module PipelineOperations {
  import opened Prelude
  import opened VdbNames
  import opened SourcePipeline
  import opened PipelineTheorems

  // ---------------------------------------------------------------- deployments

  /** The row of a registered source, if the row is there. */
  function RowOf(s: State, name: string): Option<Row> {
    if name in s.registered && s.registered[name] in s.rows then Some(s.rows[s.registered[name]]) else None
  }

  predicate IsActive(s: State, name: string) {
    ConnName(name) in s.vdbs && s.vdbs[ConnName(name)].SourceVdb? && s.vdbs[ConnName(name)].active
  }

  predicate IsLoading(s: State, name: string) { LoadName(name) in s.vdbs && s.vdbs[LoadName(name)].LoadVdb? }

  /** The database is deployed from the DDL of the row: unless a new load is wanted, and unless an active database
      is there that is not to be replaced. */
  predicate FromDdl(s: State, name: string, mode: Mode) {
    && RowOf(s, name).Some? && RowOf(s, name).value.ddl.Some?
    && match mode
       case ReuseDdl => !IsActive(s, name)
       case MakeLive => !IsActive(s, name)
       case ReplaceDdl => true
       case RefreshDdl => false
  }

  /** A load is started: a new one is wanted, or the row has no DDL and the source is to go live; and none is under
      way. */
  predicate ByLoad(s: State, name: string, mode: Mode) {
    RowOf(s, name).Some? && !IsLoading(s, name) && (mode.RefreshDdl? || (mode.MakeLive? && RowOf(s, name).value.ddl.None?))
  }

  /** A deployment changes at most the source database or the load database of its source, and queues a refresh
      exactly with the former. */
  lemma DeploymentChanges(s: State, name: string, mode: Mode, outcome: Outcome)
    ensures var s' := DeploySource(s, name, mode, outcome);
            && s'.rows == s.rows && s'.registered == s.registered
            && s'.queue == (if FromDdl(s, name, mode) then s.queue + [Refresh] else s.queue)
            && (!FromDdl(s, name, mode) && !ByLoad(s, name, mode) ==> s' == s)
  {
    DeploymentKeepsRows(s, name, mode, outcome);
  }

  lemma DeploysFromDdl(s: State, name: string, mode: Mode, outcome: Outcome)
    requires FromDdl(s, name, mode)
    ensures var s' := DeploySource(s, name, mode, outcome);
            var ddl := RowOf(s, name).value.ddl.value;
            s'.vdbs == if "--failed: " <= ddl || outcome.Throws? then s.vdbs - {ConnName(name)}
                       else s.vdbs[ConnName(name) := SourceVdb(outcome == BecomesActive, name, s.registered[name], ddl)]
  {}

  lemma DeploysByLoad(s: State, name: string, mode: Mode, outcome: Outcome)
    requires KindsAgree(s.vdbs) && ByLoad(s, name, mode)
    ensures var s' := DeploySource(s, name, mode, outcome);
            s'.vdbs == if outcome.Throws? then s.vdbs - {LoadName(name)} else s.vdbs[LoadName(name) := LoadVdb(name, s.registered[name])]
  {
    var v := LoadName(name);
    if v in s.vdbs && s.vdbs[v].SourceVdb? {
      assert RightName(v, s.vdbs[v]);
      KindsNeverCollide(s.vdbs[v].source, name);
    }
  }

  // ---------------------------------------------------------------- connections

  /** The name that an addition goes by: that of the object at hand, or of the row, or else a new one that no row
      has. */
  function GoesBy(s: State, op: Op): Option<string>
    requires op.Add?
  {
    if op.held.Some? then op.held
    else if op.id in s.rows then Some(s.rows[op.id].name)
    else if op.naming.Some? && (forall i | i in s.rows :: s.rows[i].name != op.naming.value) then op.naming
    else None
  }

  /** The registrations after an addition: an update drops that of the object at hand; then the connection is
      registered by its name, unless that name is registered or the server refuses. */
  function RegistersAs(s: State, op: Op): map<string, Id>
    requires op.Add?
  {
    var kept := if op.update && op.held.Some? then s.registered - {op.held.value} else s.registered;
    var name := GoesBy(s, op);
    if name.Some? && name.value !in kept && op.registers then kept[name.value := op.id] else kept
  }

  /** The rows after an addition: one more, without DDL, if the connection has just been given a name. */
  function RowsWith(s: State, op: Op): map<Id, Row>
    requires op.Add?
  {
    if op.held.None? && op.id !in s.rows && GoesBy(s, op).Some? then s.rows[op.id := Row(GoesBy(s, op).value, None)] else s.rows
  }

  lemma PreparedForAddition(s: State, op: Op)
    requires op.Add?
    ensures var (s1, name) := Prepared(s, op.id, op.held, op.update, op.naming, op.registers);
            && s1 == State(RowsWith(s, op), RegistersAs(s, op), s.vdbs, s.queue)
            && name == (if GoesBy(s, op).Some? && GoesBy(s, op).value in RegistersAs(s, op) then GoesBy(s, op) else None)
  {
    assert op.naming.Some? ==> (op.naming.value !in RowNames(s) <==> forall i | i in s.rows :: s.rows[i].name != op.naming.value);
  }

  /** An addition gives the connection a row if it has no name yet, and registers it.  If it is registered then, the
      source is deployed: an update by a new load, anything else from the row, or by a load if that has no DDL. */
  lemma AdditionDoes(s: State, op: Op)
    requires op.Add?
    ensures var s1 := State(RowsWith(s, op), RegistersAs(s, op), s.vdbs, s.queue);
            RanOp(s, op) ==
            if GoesBy(s, op).Some? && GoesBy(s, op).value in RegistersAs(s, op) && op.deploy.Some?
            then DeploySource(s1, GoesBy(s, op).value, if op.update then RefreshDdl else MakeLive, op.deploy.value)
            else s1
  {
    PreparedForAddition(s, op);
  }

  /** A connection that is seen for the first time: it gets its row and is registered, and its load begins. */
  lemma NewConnection(s: State, id: Id, name: string, update: bool)
    requires Sound(s) && id !in s.rows && name !in s.registered && !IsLoading(s, name)
    requires forall i | i in s.rows :: s.rows[i].name != name
    ensures var s' := RanOp(s, Add(id, None, update, Some(name), true, Some(BecomesActive)));
            s' == State(s.rows[id := Row(name, None)], s.registered[name := id], s.vdbs[LoadName(name) := LoadVdb(name, id)], s.queue)
  {
    var op := Add(id, None, update, Some(name), true, Some(BecomesActive));
    AdditionDoes(s, op);
    var s1 := State(RowsWith(s, op), RegistersAs(s, op), s.vdbs, s.queue);
    DeploysByLoad(s1, name, if update then RefreshDdl else MakeLive, BecomesActive);
    DeploymentChanges(s1, name, if update then RefreshDdl else MakeLive, BecomesActive);
  }

  /** A removal deletes the row, and with it queues the deletion of the database under the name at hand; and the
      registration under that name, in any case. */
  lemma RemovalDoes(s: State, id: Id, held: Option<string>, schemaFails: bool)
    ensures var s' := RanOp(s, Remove(id, held, schemaFails));
            && s'.vdbs == s.vdbs && s'.rows == (if schemaFails then s.rows else s.rows - {id})
            && s'.registered == (if held.Some? then s.registered - {held.value} else s.registered)
            && s'.queue == (if schemaFails || id !in s.rows then s.queue
                            else s.queue + [Delete(if held.Some? then held.value else "null")])
  {}

  // ---------------------------------------------------------------- the executor

  /** The things to do one by one. */
  function Pieces(task: Task): seq<Task> {
    if task.Connections? then seq(|task.ops|, i requires 0 <= i < |task.ops| => Connections([task.ops[i]])) else [task]
  }

  function AllPieces(queue: seq<Task>): seq<Task> { if queue == [] then [] else Pieces(queue[0]) + AllPieces(queue[1..]) }

  lemma PiecesFirst(task: Task, rest: seq<Task>)
    ensures AllPieces([task] + rest) == Pieces(task) + AllPieces(rest)
  {
    assert ([task] + rest)[1..] == rest;
  }

  lemma FewerPieces(ops: seq<Op>)
    requires ops != []
    ensures Pieces(Connections(ops))[1..] == Pieces(Connections(ops[1..]))
  {}

  lemma RestOfConcat(a: seq<Task>, b: seq<Task>)
    ensures if a == [] then a + b == b else (a + b)[1..] == a[1..] + b
  {}

  /** The executor does every piece in its turn, and each once. */
  lemma FirstInFirstOut(queue: seq<Task>)
    requires queue != []
    ensures AllPieces(Rest(queue)) == if Pieces(queue[0]) == [] then AllPieces(queue) else AllPieces(queue)[1..]
  {
    var task, others := queue[0], queue[1..];
    RestOfConcat(Pieces(task), AllPieces(others));
    if task.Connections? && |task.ops| > 1 {
      FewerPieces(task.ops);
      PiecesFirst(Connections(task.ops[1..]), others);
    }
  }

  lemma {:induction false} LastInLine(queue: seq<Task>, task: Task)
    ensures AllPieces(queue + [task]) == AllPieces(queue) + Pieces(task)
  {
    if queue == [] {
      assert ([task])[1..] == [];
      assert Pieces(task) + [] == Pieces(task);
    } else {
      assert (queue + [task])[1..] == queue[1..] + [task];
      LastInLine(queue[1..], task);
    }
  }

  /** A refresh drops all previews, lets the master import the active source databases, and nothing else. */
  lemma RefreshDoes(vdbs: map<string, Vdb>, n: string)
    ensures n in Refreshed(vdbs) <==> n == "Preview" || (n in vdbs && !IsService(n))
    ensures n in Refreshed(vdbs) && n != "Preview" ==> Refreshed(vdbs)[n] == vdbs[n]
    ensures Refreshed(vdbs)["Preview"].MasterVdb?
    ensures n in Refreshed(vdbs)["Preview"].imports <==> n in vdbs && IsConn(n) && vdbs[n].SourceVdb? && vdbs[n].active
  {}

  // ---------------------------------------------------------------- previews

  /** A preview comes with its deployment, and goes with its removal or with the next refresh or deletion. */
  predicate Previewed(actions: seq<Action>, dv: string) {
    actions != [] &&
    var n := |actions| - 1;
    var s := Run(Init, actions[..n]);
    match actions[n]
    case DeployPreview(d) => d == dv || Previewed(actions[..n], dv)
    case RemovePreview(d) => d != dv && Previewed(actions[..n], dv)
    case RunTask(_) => !(s.queue != [] && (s.queue[0].Refresh? || s.queue[0].Delete?)) && Previewed(actions[..n], dv)
    case _ => Previewed(actions[..n], dv)
  }

  lemma DeploymentSparesPreviews(s: State, name: string, mode: Mode, outcome: Outcome, dv: string)
    requires KindsAgree(s.vdbs)
    ensures PreviewName(dv) in DeploySource(s, name, mode, outcome).vdbs <==> PreviewName(dv) in s.vdbs
  {
    KindsNeverCollide(name, dv);
    if FromDdl(s, name, mode) {
      DeploysFromDdl(s, name, mode, outcome);
    } else if ByLoad(s, name, mode) {
      DeploysByLoad(s, name, mode, outcome);
    } else {
      DeploymentChanges(s, name, mode, outcome);
    }
  }

  lemma OpSparesPreviews(s: State, op: Op, dv: string)
    requires KindsAgree(s.vdbs)
    ensures PreviewName(dv) in RanOp(s, op).vdbs <==> PreviewName(dv) in s.vdbs
  {
    if op.Add? {
      AdditionDoes(s, op);
      var s1 := State(RowsWith(s, op), RegistersAs(s, op), s.vdbs, s.queue);
      if GoesBy(s, op).Some? && op.deploy.Some? {
        DeploymentSparesPreviews(s1, GoesBy(s, op).value, if op.update then RefreshDdl else MakeLive, op.deploy.value, dv);
      }
    } else {
      RemovalDoes(s, op.id, op.held, op.schemaFails);
    }
  }

  lemma TaskAndPreviews(s: State, outcome: Outcome, dv: string)
    requires KindsAgree(s.vdbs) && s.queue != []
    ensures PreviewName(dv) in RanTask(s, outcome).vdbs
       <==> PreviewName(dv) in s.vdbs && !s.queue[0].Refresh? && !s.queue[0].Delete?
  {
    var s1 := s.(queue := Rest(s.queue));
    NamesAreInjective(dv, dv);
    KindsNeverCollide(dv, dv);
    match s.queue[0]
    case Refresh => RefreshDoes(s.vdbs, PreviewName(dv));
    case Delete(source) => RefreshDoes(s.vdbs - {ConnName(source)}, PreviewName(dv));
    case Replace(source) => DeploymentSparesPreviews(s1, source, ReplaceDdl, outcome, dv);
    case Connections(ops) => if ops != [] { OpSparesPreviews(s1, ops[0], dv); }
  }

  /** Over every run, a preview is deployed if and only if it was deployed and neither removed nor swept away by a
      refresh or a deletion since. */
  lemma {:induction false} PreviewsOverRuns(actions: seq<Action>, dv: string)
    ensures PreviewName(dv) in Run(Init, actions).vdbs <==> Previewed(actions, dv)
  {
    KindsNeverCollide(dv, dv);
    if actions != [] {
      var n := |actions| - 1;
      var s := Run(Init, actions[..n]);
      PreviewsOverRuns(actions[..n], dv);
      SoundOverRuns(actions[..n]);
      match actions[n]
      case Deploy(name, mode, outcome) => DeploymentSparesPreviews(s, name, mode, outcome, dv);
      case FinishLoad(name, _, _) => KindsNeverCollide(name, dv);
      case DeployPreview(d) => NamesAreInjective(d, dv);
      case RemovePreview(d) => NamesAreInjective(d, dv);
      case RunTask(outcome) => if s.queue != [] { TaskAndPreviews(s, outcome, dv); }
      case Arrive(_) =>
    }
  }
}
