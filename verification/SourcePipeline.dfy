/** The source-database pipeline as a step system over its shared state: the schema rows, the registered
    data sources, the deployed databases and the first-in-first-out queue of the single-threaded
    connection executor. */
module SourcePipeline {
  import opened Prelude
  import opened VdbNames

  const FAILED_DDL := "--failed: "

  type Id = string

  datatype Row = Row(name: string, ddl: Option<string>)

  /** A source database records the DDL its row held when it was deployed; a load database is loading
      for as long as it is deployed. */
  datatype Vdb =
    | SourceVdb(active: bool, source: string, id: Id, ddl: string)
    | LoadVdb(source: string, id: Id)
    | ServiceVdb
    | MasterVdb(imports: set<string>)

  /** One connection as the synchronizer handles it.  `held` is the name that the data source object at hand
      knows; `naming` the name that naming would give, if it succeeds; `registers` whether the server accepts
      the data source; `deploy` how the deployment at the end turns out, if it happens at all. */
  datatype Op =
    | Add(id: Id, held: Option<string>, update: bool, naming: Option<string>, registers: bool, deploy: Option<Outcome>)
    | Remove(id: Id, held: Option<string>, schemaFails: bool)

  /** What waits for the one executor thread: refreshes, replacements and deletions, and the connection events
      and reconciliations, each a list of connections to handle. */
  datatype Task = Refresh | Replace(source: string) | Delete(source: string) | Connections(ops: seq<Op>)

  datatype Mode = ReuseDdl | ReplaceDdl | RefreshDdl | MakeLive

  /** How the server answers a deployment: it becomes active, it is kept in a failed state, or an
      exception leaves nothing deployed. */
  datatype Outcome = BecomesActive | BecomesFailed | Throws

  datatype LoadResult = Loaded(schema: string) | LoadFailed(error: string)

  datatype State = State(
    rows: map<Id, Row>,
    registered: map<string, Id>,
    vdbs: map<string, Vdb>,
    queue: seq<Task>)

  /** Steps of other threads (requests, load callbacks, arriving events, previews) and of the executor. */
  datatype Action =
    | Arrive(ops: seq<Op>)
    | Deploy(name: string, mode: Mode, outcome: Outcome)
    | FinishLoad(name: string, result: LoadResult, conflict: bool)
    | DeployPreview(dv: string)
    | RemovePreview(dv: string)
    | RunTask(outcome: Outcome)

  // ---------------------------------------------------------------- operations

  predicate IsFailedDdl(ddl: string) { FAILED_DDL <= ddl }

  predicate IsActiveConn(vdbs: map<string, Vdb>, name: string) {
    name in vdbs && IsConn(name) && vdbs[name].SourceVdb? && vdbs[name].active
  }

  function ActiveConns(vdbs: map<string, Vdb>): set<string> {
    set name | name in vdbs && IsActiveConn(vdbs, name)
  }

  /** The preview refresh drops every service preview and redeploys the master over the active sources. */
  function Refreshed(vdbs: map<string, Vdb>): map<string, Vdb> {
    var kept := map name | name in vdbs && !IsService(name) :: vdbs[name];
    kept[PREVIEW_VDB := MasterVdb(ActiveConns(vdbs))]
  }

  function Enqueue(s: State, t: Task): State { s.(queue := s.queue + [t]) }

  /** The early exit taken before and again under the lock. */
  predicate NothingToDeploy(vdbs: map<string, Vdb>, vdbName: string, load: bool, replace: bool) {
    vdbName in vdbs &&
    ((load && vdbs[vdbName].LoadVdb?) || (vdbs[vdbName].SourceVdb? && vdbs[vdbName].active && !replace))
  }

  function DeployedSource(s: State, name: string, id: Id, ddl: string, outcome: Outcome): map<string, Vdb> {
    if IsFailedDdl(ddl) || outcome.Throws? then s.vdbs - {ConnName(name)}
    else s.vdbs[ConnName(name) := SourceVdb(outcome.BecomesActive?, name, id, ddl)]
  }

  function StartLoad(s: State, name: string, id: Id, outcome: Outcome): State {
    if NothingToDeploy(s.vdbs, LoadName(name), true, false) then s
    else if outcome.Throws? then s.(vdbs := s.vdbs - {LoadName(name)})
    else s.(vdbs := s.vdbs[LoadName(name) := LoadVdb(name, id)])
  }

  function DoDeploy(s: State, name: string, id: Id, mode: Mode, outcome: Outcome): State {
    if id !in s.rows then s
    else
      var ddl := if mode.RefreshDdl? then None else s.rows[id].ddl;
      if ddl.None? then
        if mode.ReuseDdl? || mode.ReplaceDdl? then s else StartLoad(s, name, id, outcome)
      else if NothingToDeploy(s.vdbs, ConnName(name), false, mode.ReplaceDdl?) then s
      else Enqueue(s.(vdbs := DeployedSource(s, name, id, ddl.value, outcome)), Refresh)
  }

  function DeploySource(s: State, name: string, mode: Mode, outcome: Outcome): State {
    if name in s.registered then DoDeploy(s, name, s.registered[name], mode, outcome) else s
  }

  function ResultDdl(result: LoadResult): string {
    match result
    case Loaded(schema) => schema
    case LoadFailed(error) => FAILED_DDL + error
  }

  /** The load callback: drop the load database, store its schema in the row if that changes the row, and
      ask for the source database to be replaced.  `conflict` is the concurrent-update failure in which
      the row keeps its value but the replacement is requested all the same. */
  function FinishedLoad(s: State, name: string, result: LoadResult, conflict: bool): State {
    if !(LoadName(name) in s.vdbs && s.vdbs[LoadName(name)].LoadVdb?) then s
    else
      var load := s.vdbs[LoadName(name)];
      var s1 := s.(vdbs := s.vdbs - {LoadName(name)});
      if conflict then Enqueue(s1, Replace(load.source))
      else if load.id in s.rows && s.rows[load.id].ddl != Some(ResultDdl(result)) then
        Enqueue(s1.(rows := s.rows[load.id := s.rows[load.id].(ddl := Some(ResultDdl(result)))]),
                Replace(load.source))
      else s1
  }

  /** A data source without a name prints as "null". */
  function Printed(held: Option<string>): string { if held.Some? then held.value else "null" }

  /** A connection is deleted: its row, with a task to drop the database under the name at hand, and its
      registration under that name.  A failure to delete the row is logged and changes nothing else. */
  function RemovedConnection(s: State, id: Id, held: Option<string>, schemaFails: bool): State {
    var s1 :=
      if !schemaFails && id in s.rows then Enqueue(s.(rows := s.rows - {id}), Delete(Printed(held))) else s;
    if held.Some? then s1.(registered := s1.registered - {held.value}) else s1
  }

  /** An update drops the data source first. */
  function DroppedFirst(s: State, held: Option<string>, update: bool): State {
    if update && held.Some? then s.(registered := s.registered - {held.value}) else s
  }

  /** The names that rows have; the database keeps them unique. */
  function RowNames(s: State): set<string> { set id | id in s.rows :: s.rows[id].name }

  /** The row of a connection and the name to register it under.  An object without a name takes that of the
      row, or gets a row if naming succeeds with a name that no row has. */
  function NamedRow(s: State, id: Id, held: Option<string>, naming: Option<string>): (State, Option<string>) {
    if held.Some? then (s, held)
    else if id in s.rows then (s, Some(s.rows[id].name))
    else if naming.Some? && naming.value !in RowNames(s) then
      (s.(rows := s.rows[id := Row(naming.value, None)]), naming)
    else (s, None)
  }

  function Registered(s: State, name: string, id: Id, registers: bool): State {
    if name in s.registered || !registers then s else s.(registered := s.registered[name := id])
  }

  /** Everything an addition does before it deploys. */
  function Prepared(s: State, id: Id, held: Option<string>, update: bool, naming: Option<string>, registers: bool)
    : (State, Option<string>)
  {
    var (s1, name) := NamedRow(DroppedFirst(s, held, update), id, held, naming);
    if name.None? then (s1, None)
    else
      var s2 := Registered(s1, name.value, id, registers);
      (s2, if name.value in s2.registered then name else None)
  }

  function AddMode(update: bool): Mode { if update then RefreshDdl else MakeLive }

  function AddedConnection(s: State, id: Id, held: Option<string>, update: bool, naming: Option<string>, registers: bool,
                           deploy: Option<Outcome>): State
  {
    var (s1, name) := Prepared(s, id, held, update, naming, registers);
    if name.None? || deploy.None? then s1 else DeploySource(s1, name.value, AddMode(update), deploy.value)
  }

  function RanOp(s: State, op: Op): State {
    match op
    case Add(id, held, update, naming, registers, deploy) => AddedConnection(s, id, held, update, naming, registers, deploy)
    case Remove(id, held, schemaFails) => RemovedConnection(s, id, held, schemaFails)
  }

  /** The queue once the executor has taken the first thing to do off it.  Other threads may step between the
      connections of one event, other executor tasks may not. */
  function Rest(queue: seq<Task>): seq<Task>
    requires queue != []
  {
    if queue[0].Connections? && |queue[0].ops| > 1 then [Connections(queue[0].ops[1..])] + queue[1..] else queue[1..]
  }

  function RanTask(s: State, outcome: Outcome): State {
    if s.queue == [] then s
    else
      var s1 := s.(queue := Rest(s.queue));
      match s.queue[0]
      case Refresh => s1.(vdbs := Refreshed(s.vdbs))
      case Replace(source) => DeploySource(s1, source, ReplaceDdl, outcome)
      case Delete(source) => s1.(vdbs := Refreshed(s.vdbs - {ConnName(source)}))
      case Connections(ops) => if ops == [] then s1 else RanOp(s1, ops[0])
  }

  function Step(s: State, a: Action): State {
    match a
    case Arrive(ops) => Enqueue(s, Connections(ops))
    case Deploy(name, mode, outcome) => DeploySource(s, name, mode, outcome)
    case FinishLoad(name, result, conflict) => FinishedLoad(s, name, result, conflict)
    case DeployPreview(dv) => s.(vdbs := s.vdbs[PreviewName(dv) := ServiceVdb])
    case RemovePreview(dv) => s.(vdbs := s.vdbs - {PreviewName(dv)})
    case RunTask(outcome) => RanTask(s, outcome)
  }

  const Init := State(map[], map[], map[PREVIEW_VDB := MasterVdb({})], [])

  /** Every sequence of actions is a run. */
  function Run(s: State, actions: seq<Action>): State {
    if actions == [] then s else Step(Run(s, actions[..|actions| - 1]), actions[|actions| - 1])
  }

  // ---------------------------------------------------------------- the invariant

  ghost predicate RowsDistinct(s: State) {
    forall i, j | i in s.rows && j in s.rows && i != j :: s.rows[i].name != s.rows[j].name
  }

  /** Each kind of database sits under a name of its own class. */
  predicate RightName(name: string, vdb: Vdb) {
    match vdb
    case SourceVdb(_, source, _, _) => name == ConnName(source)
    case LoadVdb(source, _) => name == LoadName(source)
    case ServiceVdb => IsService(name)
    case MasterVdb(_) => name == PREVIEW_VDB
  }

  ghost predicate KindsAgree(vdbs: map<string, Vdb>) {
    && PREVIEW_VDB in vdbs && vdbs[PREVIEW_VDB].MasterVdb?
    && forall v | v in vdbs :: RightName(v, vdbs[v])
  }

  predicate Current(s: State, vdb: Vdb)
    requires vdb.SourceVdb?
  {
    vdb.id in s.rows && s.rows[vdb.id] == Row(vdb.source, Some(vdb.ddl)) && !IsFailedDdl(vdb.ddl)
  }

  /** A source database agrees with its row, or a queued executor task will repair it. */
  ghost predicate CoherentVdb(s: State, vdb: Vdb)
    requires vdb.SourceVdb?
  {
    || Delete(vdb.source) in s.queue
    || Current(s, vdb)
    || (Replace(vdb.source) in s.queue
        && vdb.id in s.rows && s.rows[vdb.id].name == vdb.source && s.rows[vdb.id].ddl.Some?)
  }

  ghost predicate Coherent(s: State) {
    forall v | v in s.vdbs && s.vdbs[v].SourceVdb? :: CoherentVdb(s, s.vdbs[v])
  }

  /** The master imports exactly the active sources, or a refresh is queued. */
  ghost predicate ImportsCurrent(s: State) {
    Refresh in s.queue || (PREVIEW_VDB in s.vdbs && s.vdbs[PREVIEW_VDB] == MasterVdb(ActiveConns(s.vdbs)))
  }

  /** What every run keeps, whatever happens. */
  ghost predicate Sound(s: State) { RowsDistinct(s) && KindsAgree(s.vdbs) && ImportsCurrent(s) }

  // ---------------------------------------------------------------- how coherence is lost

  /** The source's database is deployed and not about to be dropped. */
  predicate Deployed(s: State, name: string) {
    ConnName(name) in s.vdbs && s.vdbs[ConnName(name)].SourceVdb? && Delete(name) !in s.queue
  }

  predicate DeployedFor(s: State, name: string, id: Id) {
    Deployed(s, name) && s.vdbs[ConnName(name)].id == id
  }

  /** A deployment that succeeds puts a database under a name whose registration belongs to a row of another
      name. */
  predicate HarmfulDeploy(s: State, name: string, mode: Mode, outcome: Outcome) {
    && name in s.registered && s.registered[name] in s.rows
    && var row := s.rows[s.registered[name]];
    && row.name != name && Delete(name) !in s.queue
    && !mode.RefreshDdl? && row.ddl.Some? && !IsFailedDdl(row.ddl.value) && !outcome.Throws?
    && !NothingToDeploy(s.vdbs, ConnName(name), false, mode.ReplaceDdl?)
  }

  /** A load changes the row of a connection that has been renamed since the load began, and whose database
      under the new name nothing will replace. */
  predicate HarmfulLoad(s: State, name: string, result: LoadResult, conflict: bool) {
    && LoadName(name) in s.vdbs && s.vdbs[LoadName(name)].LoadVdb? && !conflict
    && var load := s.vdbs[LoadName(name)];
    && load.id in s.rows && s.rows[load.id].ddl != Some(ResultDdl(result))
    && var now := s.rows[load.id].name;
    now != load.source && DeployedFor(s, now, load.id) && Replace(now) !in s.queue
  }

  /** A replacement that finds no data source with a schema, while the database is stale and no other task would
      repair it; or one that finds the data source of a row of another name. */
  predicate HarmfulReplace(s: State, source: string, rest: seq<Task>, outcome: Outcome) {
    var s1 := s.(queue := rest);
    if source in s.registered && s.registered[source] in s.rows && s.rows[s.registered[source]].ddl.Some? then
      HarmfulDeploy(s1, source, ReplaceDdl, outcome)
    else
      Deployed(s1, source) && !Current(s1, s1.vdbs[ConnName(source)]) && Replace(source) !in rest
  }

  /** A row is deleted while the database under its name stays, because the object at hand goes by another name
      or by none. */
  predicate HarmfulRemoval(s: State, id: Id, held: Option<string>, schemaFails: bool) {
    !schemaFails && id in s.rows && Printed(held) != s.rows[id].name && DeployedFor(s, s.rows[id].name, id)
  }

  predicate HarmfulAddition(s: State, id: Id, held: Option<string>, update: bool, naming: Option<string>, registers: bool,
                            deploy: Option<Outcome>)
  {
    var (s1, name) := Prepared(s, id, held, update, naming, registers);
    name.Some? && deploy.Some? && HarmfulDeploy(s1, name.value, AddMode(update), deploy.value)
  }

  predicate HarmfulOp(s: State, op: Op) {
    match op
    case Add(id, held, update, naming, registers, deploy) => HarmfulAddition(s, id, held, update, naming, registers, deploy)
    case Remove(id, held, schemaFails) => HarmfulRemoval(s, id, held, schemaFails)
  }

  predicate HarmfulTask(s: State, outcome: Outcome) {
    s.queue != [] &&
    match s.queue[0]
    case Replace(source) => HarmfulReplace(s, source, s.queue[1..], outcome)
    case Connections(ops) => ops != [] && HarmfulOp(s.(queue := Rest(s.queue)), ops[0])
    case _ => false
  }

  predicate Harmful(s: State, a: Action) {
    match a
    case Deploy(name, mode, outcome) => HarmfulDeploy(s, name, mode, outcome)
    case FinishLoad(name, result, conflict) => HarmfulLoad(s, name, result, conflict)
    case RunTask(outcome) => HarmfulTask(s, outcome)
    case _ => false
  }

  ghost predicate AlwaysCoherent(s: State, actions: seq<Action>) {
    Coherent(Run(s, actions)) && (actions == [] || AlwaysCoherent(s, actions[..|actions| - 1]))
  }

  predicate NeverHarmful(s: State, actions: seq<Action>) {
    actions == [] ||
    var n := |actions| - 1;
    NeverHarmful(s, actions[..n]) && !Harmful(Run(s, actions[..n]), actions[n])
  }

  // ---------------------------------------------------------------- how names come apart

  /** Registrations and loads belong to rows of their own name. */
  ghost predicate NamesAgree(s: State) {
    && (forall n | n in s.registered && s.registered[n] in s.rows :: s.rows[s.registered[n]].name == n)
    && (forall v | v in s.vdbs && s.vdbs[v].LoadVdb? && s.vdbs[v].id in s.rows ::
          s.rows[s.vdbs[v].id].name == s.vdbs[v].source)
  }

  /** Every source database is about to be dropped, or registered to its row, and current or about to be
      replaced. */
  ghost predicate Linked(s: State) {
    forall v {:trigger s.vdbs[v]} | v in s.vdbs && s.vdbs[v].SourceVdb? :: LinkedVdb(s, s.vdbs[v])
  }

  ghost predicate LinkedVdb(s: State, vdb: Vdb)
    requires vdb.SourceVdb?
  {
    || Delete(vdb.source) in s.queue
    || (vdb.source in s.registered && s.registered[vdb.source] == vdb.id
        && vdb.id in s.rows && s.rows[vdb.id].name == vdb.source
        && (Current(s, vdb) || (s.rows[vdb.id].ddl.Some? && Replace(vdb.source) in s.queue)))
  }

  ghost predicate Orderly(s: State) { Sound(s) && NamesAgree(s) && Linked(s) }

  /** An addition goes by the name of its row, and registers again what it drops; a row is created only when no
      registration or load of the connection is left under another name. */
  ghost predicate ProperAddition(s: State, id: Id, held: Option<string>, update: bool, naming: Option<string>, registers: bool) {
    if held.Some? then
      var name := held.value;
      if update then
        if registers then
          && (id in s.rows ==> s.rows[id].name == name)
          && (Deployed(s, name) ==> name in s.registered && s.registered[name] == id)
        else !Deployed(s, name)
      else name in s.registered || !registers || (id in s.rows ==> s.rows[id].name == name)
    else
      id !in s.rows && naming.Some? && naming.value !in RowNames(s) ==>
        && (forall n | n in s.registered && s.registered[n] == id :: n == naming.value)
        && (forall v | v in s.vdbs && s.vdbs[v].LoadVdb? && s.vdbs[v].id == id :: s.vdbs[v].source == naming.value)
  }

  /** A removal drops the database along with the row, and the registration only along with the database. */
  predicate ProperRemoval(s: State, id: Id, held: Option<string>, schemaFails: bool) {
    var deletes := !schemaFails && id in s.rows;
    && (deletes ==> Printed(held) == s.rows[id].name || !Deployed(s, s.rows[id].name))
    && (held.Some? ==> deletes || !Deployed(s, held.value))
  }

  ghost predicate ProperOp(s: State, op: Op) {
    match op
    case Add(id, held, update, naming, registers, _) => ProperAddition(s, id, held, update, naming, registers)
    case Remove(id, held, schemaFails) => ProperRemoval(s, id, held, schemaFails)
  }

  ghost predicate Proper(s: State, a: Action) {
    a.RunTask? && s.queue != [] && s.queue[0].Connections? && s.queue[0].ops != [] ==>
      ProperOp(s.(queue := Rest(s.queue)), s.queue[0].ops[0])
  }

  ghost predicate AlwaysOrderly(s: State, actions: seq<Action>) {
    Orderly(Run(s, actions)) && (actions == [] || AlwaysOrderly(s, actions[..|actions| - 1]))
  }

  ghost predicate AlwaysProper(s: State, actions: seq<Action>) {
    actions == [] ||
    var n := |actions| - 1;
    AlwaysProper(s, actions[..n]) && Proper(Run(s, actions[..n]), actions[n])
  }
}
