/** Serving previews under concurrency: request threads that look up, build and deploy a virtualization's
    preview, the executor's refresh of the master preview, edits and removals, interleaved one shared access
    at a time.  `stripe` assigns a lock to each virtualization name; several names may share one. */
module PreviewConcurrency {
  import opened Prelude

  type Thread = nat

  /** A deployed preview: its version label, the version its views had when it was built, the generation of
      the master it was deployed over, and the refresh round under way at that moment. */
  datatype Preview = Preview(version: nat, content: nat, base: nat, window: Option<nat>)

  /** Where a request thread stands.  From `Checking` to `Unlocking` it holds the stripe lock, and from
      `Clearing` to `Fetching` the master lock as well. */
  datatype Caller =
    | Starting(dv: string)
    | Looking(dv: string, v: nat)
    | Waiting(dv: string, v: nat)
    | Checking(dv: string, v: nat)
    | Building(dv: string, v: nat)
    | Ready(dv: string, v: nat, content: nat)
    | Clearing(dv: string, v: nat, content: nat)
    | Putting(dv: string, v: nat, content: nat)
    | Fetching(dv: string, v: nat)
    | Unlocking(dv: string, v: nat, result: Option<Preview>)
    | Returned(dv: string, v: nat, result: Option<Preview>)
    | Failed(dv: string)

  datatype Refresh = Idle | Scanning(todo: set<string>)

  datatype State = State(
    versions: map<string, nat>,
    previews: map<string, Preview>,
    callers: map<Thread, Caller>,
    locks: map<int, Thread>,
    master: Option<Thread>,
    refresh: Refresh,
    epoch: nat,
    round: nat)

  datatype Action =
    | Call(t: Thread, dv: string)
    | Advance(t: Thread, throws: bool)
    | Create(dv: string)
    | Edit(dv: string)
    | Remove(dv: string)
    | BeginRefresh
    | DropPreview(dv: string)
    | FinishRefresh

  predicate HoldsLock(c: Caller) {
    c.Checking? || c.Building? || c.Ready? || c.Clearing? || c.Putting? || c.Fetching? || c.Unlocking?
  }

  predicate HoldsMaster(c: Caller) { c.Clearing? || c.Putting? || c.Fetching? }

  function Put(s: State, t: Thread, c: Caller): State { s.(callers := s.callers[t := c]) }

  function Found(s: State, dv: string): Option<Preview> {
    if dv in s.previews then Some(s.previews[dv]) else None
  }

  predicate IsVersion(p: Option<Preview>, v: nat) { p.Some? && p.value.version == v }

  /** A step without locks: read the version, look for the preview, wait for the stripe lock until it is free. */
  function Asked(stripe: string -> int, s: State, t: Thread): State
    requires t in s.callers && !HoldsLock(s.callers[t])
  {
    match s.callers[t]
    case Starting(dv) => Put(s, t, if dv in s.versions then Looking(dv, s.versions[dv]) else Failed(dv))
    case Looking(dv, v) =>
      Put(s, t, if IsVersion(Found(s, dv), v) then Returned(dv, v, Found(s, dv)) else Waiting(dv, v))
    case Waiting(dv, v) =>
      if stripe(dv) in s.locks then s
      else Put(s.(locks := s.locks[stripe(dv) := t]), t, Checking(dv, v))
    case _ => s
  }

  /** A step under the stripe lock alone: look again, build, wait for the master lock, or leave.  When building
      throws, the lock is released on the way out. */
  function Prepared(stripe: string -> int, s: State, t: Thread, throws: bool): State
    requires t in s.callers && HoldsLock(s.callers[t]) && !HoldsMaster(s.callers[t])
  {
    match s.callers[t]
    case Checking(dv, v) =>
      Put(s, t, if IsVersion(Found(s, dv), v) then Unlocking(dv, v, Found(s, dv)) else Building(dv, v))
    case Building(dv, v) =>
      if throws || dv !in s.versions then Put(s.(locks := s.locks - {stripe(dv)}), t, Failed(dv))
      else Put(s, t, Ready(dv, v, s.versions[dv]))
    case Ready(dv, v, content) =>
      if s.master.Some? then s else Put(s.(master := Some(t)), t, Clearing(dv, v, content))
    case Unlocking(dv, v, result) => Put(s.(locks := s.locks - {stripe(dv)}), t, Returned(dv, v, result))
  }

  /** A step under the master lock: undeploy, deploy, look up.  When deploying throws, both locks go. */
  function Deployed(stripe: string -> int, s: State, t: Thread, throws: bool): State
    requires t in s.callers && HoldsMaster(s.callers[t])
  {
    match s.callers[t]
    case Clearing(dv, v, content) => Put(s.(previews := s.previews - {dv}), t, Putting(dv, v, content))
    case Putting(dv, v, content) =>
      if throws then Put(s.(locks := s.locks - {stripe(dv)}, master := None), t, Failed(dv))
      else
        var p := Preview(v, content, s.epoch, if s.refresh.Scanning? then Some(s.round) else None);
        Put(s.(previews := s.previews[dv := p]), t, Fetching(dv, v))
    case Fetching(dv, v) => Put(s.(master := None), t, Unlocking(dv, v, Found(s, dv)))
  }

  function Advanced(stripe: string -> int, s: State, t: Thread, throws: bool): State
    requires t in s.callers
  {
    if HoldsMaster(s.callers[t]) then Deployed(stripe, s, t, throws)
    else if HoldsLock(s.callers[t]) then Prepared(stripe, s, t, throws)
    else Asked(stripe, s, t)
  }

  function Step(stripe: string -> int, s: State, a: Action): State {
    match a
    case Call(t, dv) => if t in s.callers then s else Put(s, t, Starting(dv))
    case Advance(t, throws) => if t in s.callers then Advanced(stripe, s, t, throws) else s
    case Create(dv) => if dv in s.versions then s else s.(versions := s.versions[dv := 0])
    case Edit(dv) => if dv in s.versions then s.(versions := s.versions[dv := s.versions[dv] + 1]) else s
    case Remove(dv) => s.(previews := s.previews - {dv})
    case BeginRefresh => if s.refresh.Idle? then s.(refresh := Scanning(s.previews.Keys), round := s.round + 1) else s
    case DropPreview(dv) =>
      if s.refresh.Scanning? && dv in s.refresh.todo && s.master.None?
      then s.(previews := s.previews - {dv}, refresh := Scanning(s.refresh.todo - {dv}))
      else s
    case FinishRefresh =>
      if s.refresh.Scanning? && s.refresh.todo == {} && s.master.None?
      then s.(refresh := Idle, epoch := s.epoch + 1)
      else s
  }

  const Init := State(map[], map[], map[], map[], None, Idle, 0, 0)

  function Run(stripe: string -> int, s: State, actions: seq<Action>): State {
    if actions == [] then s
    else Step(stripe, Run(stripe, s, actions[..|actions| - 1]), actions[|actions| - 1])
  }

  // ---------------------------------------------------------------- the invariant

  predicate LockOk(stripe: string -> int, s: State, t: Thread, c: Caller) {
    && (HoldsLock(c) ==> stripe(c.dv) in s.locks && s.locks[stripe(c.dv)] == t)
    && (HoldsMaster(c) ==> s.master == Some(t))
  }

  ghost predicate LocksAgree(stripe: string -> int, s: State) {
    forall t | t in s.callers :: LockOk(stripe, s, t, s.callers[t])
  }

  /** A preview carries a version not later than that of its views, and neither runs ahead of the database. */
  predicate PreviewOk(s: State, dv: string, p: Preview) {
    dv in s.versions && p.version <= p.content <= s.versions[dv] && p.base <= s.epoch
  }

  predicate ResultOk(s: State, dv: string, v: nat, result: Option<Preview>) {
    result.Some? ==> result.value.version == v && PreviewOk(s, dv, result.value)
  }

  predicate CallerOk(s: State, c: Caller) {
    match c
    case Starting(_) => true
    case Failed(_) => true
    case Looking(dv, v) => dv in s.versions && v <= s.versions[dv]
    case Waiting(dv, v) => dv in s.versions && v <= s.versions[dv]
    case Checking(dv, v) => dv in s.versions && v <= s.versions[dv]
    case Building(dv, v) => dv in s.versions && v <= s.versions[dv]
    case Ready(dv, v, content) => dv in s.versions && v <= content <= s.versions[dv]
    case Clearing(dv, v, content) => dv in s.versions && v <= content <= s.versions[dv]
    case Putting(dv, v, content) => dv in s.versions && v <= content <= s.versions[dv]
    case Fetching(dv, v) => ResultOk(s, dv, v, Found(s, dv))
    case Unlocking(dv, v, result) => ResultOk(s, dv, v, result)
    case Returned(dv, v, result) => ResultOk(s, dv, v, result)
  }

  ghost predicate PreviewsOk(s: State) { forall dv | dv in s.previews :: PreviewOk(s, dv, s.previews[dv]) }

  ghost predicate CallersOk(s: State) { forall t | t in s.callers :: CallerOk(s, s.callers[t]) }

  /** While the refresh scans, what it need not drop any more was deployed in this round.  Once it is done,
      a preview is older than the master exactly when it was deployed during that last round. */
  ghost predicate RoundsAgree(s: State) {
    && (forall dv | dv in s.previews && s.previews[dv].window.Some? :: s.previews[dv].window.value <= s.round)
    && match s.refresh
       case Idle =>
         forall dv | dv in s.previews ::
           && (s.previews[dv].base < s.epoch <==> s.previews[dv].window == Some(s.round))
           && s.previews[dv].base + 1 >= s.epoch
       case Scanning(todo) =>
         && (forall dv | dv in s.previews && dv !in todo :: s.previews[dv].window == Some(s.round))
         && (forall dv | dv in s.previews && s.previews[dv].window == Some(s.round) :: s.previews[dv].base == s.epoch)
  }

  ghost predicate Inv(stripe: string -> int, s: State) {
    LocksAgree(stripe, s) && PreviewsOk(s) && CallersOk(s) && RoundsAgree(s)
  }

  // ---------------------------------------------------------------- counting deployments

  /** The step in which a thread deploys the preview of `dv`. */
  predicate DeploysPreview(s: State, a: Action, dv: string) {
    a.Advance? && !a.throws && a.t in s.callers && s.callers[a.t].Putting? && s.callers[a.t].dv == dv
  }

  /** Nothing but the callers themselves acts on `dv`: no edit, no removal, no drop by a refresh. */
  predicate LeavesAlone(a: Action, dv: string) {
    a != Edit(dv) && a != Remove(dv) && a != DropPreview(dv)
  }

  function Deployments(stripe: string -> int, s: State, actions: seq<Action>, dv: string): nat {
    if actions == [] then 0
    else
      var front, last := actions[..|actions| - 1], actions[|actions| - 1];
      Deployments(stripe, s, front, dv) + if DeploysPreview(Run(stripe, s, front), last, dv) then 1 else 0
  }

  /** No request for `dv` is under way. */
  ghost predicate NoneUnderWay(s: State, dv: string) {
    forall t | t in s.callers && s.callers[t].dv == dv :: s.callers[t].Starting? || s.callers[t].Returned? || s.callers[t].Failed?
  }

  predicate Replacing(c: Caller) { c.Building? || c.Ready? || c.Clearing? || c.Putting? }

  /** The version a request under way has read. */
  predicate ReadVersion(c: Caller, v: nat) {
    match c
    case Starting(_) => true
    case Failed(_) => true
    case Returned(_, _, _) => true
    case Unlocking(_, _, _) => true
    case Looking(_, u) => u == v
    case Waiting(_, u) => u == v
    case Checking(_, u) => u == v
    case Building(_, u) => u == v
    case Ready(_, u, _) => u == v
    case Clearing(_, u, _) => u == v
    case Putting(_, u, _) => u == v
    case Fetching(_, u) => u == v
  }

  /** After `n` deployments of an undisturbed preview. */
  ghost predicate Undisturbed(s: State, dv: string, n: nat) {
    && dv in s.versions && n <= 1
    && (forall t | t in s.callers && s.callers[t].dv == dv :: ReadVersion(s.callers[t], s.versions[dv]))
    && (n == 1 ==> && IsVersion(Found(s, dv), s.versions[dv])
                   && forall t | t in s.callers && s.callers[t].dv == dv :: !Replacing(s.callers[t]))
  }
}
