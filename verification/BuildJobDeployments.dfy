/** When a pass makes another deployment config: what it read first, and what has been written since. */
module BuildJobDeployments {
  import opened Prelude
  import opened BuildJobs
  import opened BuildJobTheorems
  import opened BuildJobRaces

  // ---------------------------------------------------------------- what a pass has read, and what was written since

  /** A request, a deletion or a configuration writes the status of the job. */
  predicate OthersWrite(s: State, a: Action, id: JobId) {
    match a
    case MarkDeleted(request) => request in s.requests && s.requests[request].Marking? && s.requests[request].job == id
    case Configured(i, _) => i == id && id in s.configuring
    case DeletionFails(task) => task in s.deletions && s.deletions[task] == id
    case DeletionEnds(task) => task in s.deletions && s.deletions[task] == id
    case _ => false
  }

  /** The monitor reads the status of the job for the first time in a pass. */
  predicate ReadsFirst(s: State, a: Action, id: JobId) { a.Check? && s.monitor == Checking(id, 0) && id in s.jobs }

  /** The status that the last pass over the job read first. */
  function FirstRead(actions: seq<Action>, id: JobId): Option<Status> {
    if actions == [] then None
    else
      var n := |actions| - 1;
      var s := Before(actions, n);
      if ReadsFirst(s, actions[n], id) then Some(s.jobs[id].status) else FirstRead(actions[..n], id)
  }

  /** Another thread has written the status of the job since that read. */
  function Disturbed(actions: seq<Action>, id: JobId): bool {
    actions != [] &&
    var n := |actions| - 1;
    var s := Before(actions, n);
    !ReadsFirst(s, actions[n], id) && (OthersWrite(s, actions[n], id) || Disturbed(actions[..n], id))
  }

  /** The tests that the pass has behind it. */
  function Tests(p: Place): nat { if p.Checking? then p.at else if p.Fetching? || p.Rechecking? then CHECKS else 0 }

  /** The first `at` tests do not stop a pass that reads this status. */
  predicate Passes(status: Status, at: nat) {
    && (at > 0 ==> !status.DeleteSubmitted?) && (at > 1 ==> !status.DeleteRequeue?) && (at > 2 ==> !status.DeleteDone?)
    && (at > 3 ==> !status.Failed?) && (at > 4 ==> !status.Cancelled?) && (at > 5 ==> !status.Submitted?)
    && (at > 6 ==> !status.Configuring?)
  }

  /** What the status says, given what was read first and whether it has been written since. */
  predicate ReadOk(s: State, id: JobId, first: Option<Status>, disturbed: bool) {
    Busy(s.monitor, id) && id in s.jobs && Tests(s.monitor) > 0 ==>
      && first.Some?
      && if disturbed then Deleting(s.jobs[id].status) || s.jobs[id].status.Building? || s.jobs[id].status.Failed?
         else s.jobs[id].status == first.value && Passes(first.value, Tests(s.monitor))
  }

  lemma ReadThroughCheck(s: State, task: nat, id: JobId, first: Option<Status>, disturbed: bool)
    requires Inv(s) && ReadOk(s, id, first, disturbed)
    ensures var a := Check(task);
            if ReadsFirst(s, a, id) then ReadOk(Step(s, a), id, Some(s.jobs[id].status), false)
            else ReadOk(Step(s, a), id, first, disturbed)
  {}

  /** Once past its tests, a pass has read what it will. */
  lemma ReadThroughMonitor(s: State, a: Action, id: JobId, first: Option<Status>, disturbed: bool)
    requires PlacesOk(s) && ReadOk(s, id, first, disturbed)
    requires a.BeginPass? || a.Interrupt? || a.Fetch? || a.Recheck? || a.WriteStatus? || a.Close? || a.Leave?
    ensures ReadOk(Step(s, a), id, first, disturbed)
  {
    match a
    case BeginPass => if s.workQueue != [] { assert s.workQueue[0] in s.workQueue; }
    case Recheck(_, _, _) => assert s.monitor.Rechecking? ==> Tests(Step(s, a).monitor) == 0;
    case _ =>
  }

  lemma ReadThroughWrites(s: State, a: Action, id: JobId, first: Option<Status>, disturbed: bool)
    requires Inv(s) && Enabled(s, a) && ReadOk(s, id, first, disturbed)
    requires a.MarkDeleted? || a.Configured? || a.DeletionFails? || a.DeletionEnds?
    ensures ReadOk(Step(s, a), id, first, disturbed || OthersWrite(s, a, id))
  {}

  lemma ReadThroughOthers(s: State, a: Action, id: JobId, first: Option<Status>, disturbed: bool)
    requires Inv(s) && Enabled(s, a) && ReadOk(s, id, first, disturbed)
    requires a.Publish? || a.NameBuild? || a.RequestDelete? || a.LookAgain? || a.QueueRunner?
    ensures ReadOk(Step(s, a), id, first, disturbed)
  {}

  lemma ReadStep(s: State, a: Action, id: JobId, first: Option<Status>, disturbed: bool)
    requires Inv(s) && Enabled(s, a) && ReadOk(s, id, first, disturbed)
    ensures if ReadsFirst(s, a, id) then ReadOk(Step(s, a), id, Some(s.jobs[id].status), false)
            else ReadOk(Step(s, a), id, first, disturbed || OthersWrite(s, a, id))
  {
    match a
    case Check(task) => ReadThroughCheck(s, task, id, first, disturbed);
    case MarkDeleted(_) => ReadThroughWrites(s, a, id, first, disturbed);
    case Configured(_, _) => ReadThroughWrites(s, a, id, first, disturbed);
    case DeletionFails(_) => ReadThroughWrites(s, a, id, first, disturbed);
    case DeletionEnds(_) => ReadThroughWrites(s, a, id, first, disturbed);
    case Publish(_, _) => ReadThroughOthers(s, a, id, first, disturbed);
    case NameBuild(_, _) => ReadThroughOthers(s, a, id, first, disturbed);
    case RequestDelete(_, _, _) => ReadThroughOthers(s, a, id, first, disturbed);
    case LookAgain(_, _, _, _) => ReadThroughOthers(s, a, id, first, disturbed);
    case QueueRunner(_) => ReadThroughOthers(s, a, id, first, disturbed);
    case _ => ReadThroughMonitor(s, a, id, first, disturbed);
  }

  lemma {:induction false} ReadOverRuns(actions: seq<Action>, id: JobId)
    requires IsRun(Init(), actions)
    ensures ReadOk(Run(Init(), actions), id, FirstRead(actions, id), Disturbed(actions, id))
  {
    if actions != [] {
      var n := |actions| - 1;
      ReadOverRuns(actions[..n], id);
      InvOverRuns(actions[..n]);
      ReadStep(Before(actions, n), actions[n], id, FirstRead(actions[..n], id), Disturbed(actions[..n], id));
    }
  }

  /** In every reachable state, when a pass is about to read the status once more for a complete build: it will find the
      job deploying if and only if that is what it read first and no other thread has written since.  If none has, the
      job was building, deploying or running. */
  lemma RecheckFinds(actions: seq<Action>, id: JobId)
    requires IsRun(Init(), actions) && Run(Init(), actions).monitor == Rechecking(id)
    ensures var s := Run(Init(), actions);
            && id in s.jobs && FirstRead(actions, id).Some?
            && (s.jobs[id].status.Deploying? <==> FirstRead(actions, id) == Some(Deploying) && !Disturbed(actions, id))
            && (!Disturbed(actions, id) && !s.jobs[id].fetched ==>
                  FirstRead(actions, id).value.Building? || FirstRead(actions, id).value.Deploying? || FirstRead(actions, id).value.Running?)
  {
    ReadOverRuns(actions, id);
    InvOverRuns(actions);
    var s := Run(Init(), actions);
    assert JobOk(s.jobs[id], id in s.configuring, PlaceOf(s, id));
  }

  // ---------------------------------------------------------------- a second deployment config

  /** Action `k` makes another deployment config for a job that has one. */
  predicate RedeploysAt(actions: seq<Action>, id: JobId, k: nat) {
    && k < |actions| && actions[k].Recheck? && !actions[k].secretThrows
    && var s := Before(actions, k);
    && s.monitor == Rechecking(id) && id in s.jobs && s.jobs[id].deployments > 0
    && (Disturbed(actions[..k], id) || FirstRead(actions[..k], id) != Some(Deploying))
  }

  ghost predicate EverRedeploys(actions: seq<Action>, id: JobId) { exists k: nat :: RedeploysAt(actions, id, k) }

  function Deployments(s: State, id: JobId): nat { if id in s.jobs then s.jobs[id].deployments else 0 }

  lemma RedeploysEarlier(actions: seq<Action>, id: JobId, k: nat)
    requires k < |actions| - 1
    ensures RedeploysAt(actions[..|actions| - 1], id, k) == RedeploysAt(actions, id, k)
  {
    assert actions[..|actions| - 1][..k] == actions[..k];
  }

  lemma RedeploysStep(actions: seq<Action>, id: JobId)
    requires actions != []
    ensures var n := |actions| - 1;
            EverRedeploys(actions, id) <==> EverRedeploys(actions[..n], id) || RedeploysAt(actions, id, n)
  {
    var n := |actions| - 1;
    forall k: nat | k < n ensures RedeploysAt(actions[..n], id, k) == RedeploysAt(actions, id, k) { RedeploysEarlier(actions, id, k); }
    if EverRedeploys(actions[..n], id) {
      var k: nat :| RedeploysAt(actions[..n], id, k);
      assert RedeploysAt(actions, id, k);
    }
  }

  /** Only the second read of a pass changes the number of deployment configs. */
  lemma DeploymentsChange(s: State, a: Action, id: JobId)
    requires Inv(s) && Enabled(s, a)
    ensures Deployments(Step(s, a), id) ==
            Deployments(s, id) + if a.Recheck? && s.monitor == Rechecking(id) && Deploys(s.jobs[id], a.secretThrows) then 1 else 0
  {
    match a
    case Publish(_, _) =>
    case LookAgain(_, _, _, _) =>
    case Recheck(_, _, _) =>
    case _ => OtherStepsKeepDeployments(s, a, id);
  }

  lemma OtherStepsKeepDeployments(s: State, a: Action, id: JobId)
    requires !a.Publish? && !a.LookAgain? && !a.Recheck?
    ensures Deployments(Step(s, a), id) == Deployments(s, id)
  {
    match a
    case WriteStatus =>
    case Close =>
    case MarkDeleted(_) =>
    case QueueRunner(_) =>
    case _ =>
  }

  /** Over every run: a job gets a second deployment config if and only if a pass over the job, which already has one,
      finds its build complete after another thread has written the status since its first read, or after it first
      read another status than deploying. */
  lemma {:induction false} SecondDeployment(actions: seq<Action>, id: JobId)
    requires IsRun(Init(), actions)
    ensures Deployments(Run(Init(), actions), id) > 1 <==> EverRedeploys(actions, id)
  {
    if actions != [] {
      var n := |actions| - 1;
      var s, a := Before(actions, n), actions[n];
      SecondDeployment(actions[..n], id);
      RedeploysStep(actions, id);
      InvOverRuns(actions[..n]);
      DeploymentsChange(s, a, id);
      if a.Recheck? && s.monitor == Rechecking(id) {
        RecheckFinds(actions[..n], id);
        assert JobOk(s.jobs[id], id in s.configuring, PlaceOf(s, id));
      }
    }
  }

  // ---------------------------------------------------------------- passes that nobody disturbs

  /** A configuration ends, and makes the job building, after it has been deployed. */
  predicate BuildsLate(s: State, a: Action, id: JobId) {
    a == Configured(id, true) && id in s.configuring && Deployments(s, id) > 0
  }

  predicate BuildsLateAt(actions: seq<Action>, id: JobId, k: nat) { k < |actions| && BuildsLate(Before(actions, k), actions[k], id) }

  ghost predicate EverBuildsLate(actions: seq<Action>, id: JobId) { exists k: nat :: BuildsLateAt(actions, id, k) }

  lemma BuildsLateStep(actions: seq<Action>, id: JobId)
    requires actions != []
    ensures var n := |actions| - 1;
            EverBuildsLate(actions, id) <==> EverBuildsLate(actions[..n], id) || BuildsLate(Before(actions, n), actions[n], id)
  {
    var n := |actions| - 1;
    forall k: nat | k < n ensures BuildsLateAt(actions[..n], id, k) == BuildsLateAt(actions, id, k) { EarlierState(actions, k); }
    if EverBuildsLate(actions[..n], id) {
      var k: nat :| BuildsLateAt(actions[..n], id, k);
      assert BuildsLateAt(actions, id, k);
    }
    if BuildsLate(Before(actions, n), actions[n], id) { assert BuildsLateAt(actions, id, n); }
  }

  /** A deployed job is building only after a late end of its configuration, or while the pass that deploys it has yet
      to say so. */
  predicate LateOk(s: State, id: JobId, late: bool) {
    id in s.jobs && !s.jobs[id].fetched && s.jobs[id].status.Building? && s.jobs[id].deployments > 0 ==>
      late || (PlaceOf(s, id).Writing? && PlaceOf(s, id).effect.status.Deploying?)
  }

  lemma LateThroughMonitor(s: State, a: Action, id: JobId, late: bool)
    requires Inv(s) && LateOk(s, id, late)
    requires a.BeginPass? || a.Interrupt? || a.Check? || a.Fetch? || a.Close? || a.Leave?
    ensures LateOk(Step(s, a), id, late)
  {}

  lemma LateThroughWrite(s: State, a: Action, id: JobId, late: bool)
    requires Inv(s) && LateOk(s, id, late) && (a.Recheck? || a.WriteStatus?)
    ensures LateOk(Step(s, a), id, late)
  {
    if !s.monitor.Idle? && s.monitor.job in s.jobs {
      assert JobOk(s.jobs[s.monitor.job], s.monitor.job in s.configuring, PlaceOf(s, s.monitor.job));
    }
  }

  lemma LateThroughConfiguration(s: State, i: JobId, succeeds: bool, id: JobId, late: bool)
    requires Inv(s) && LateOk(s, id, late)
    ensures LateOk(ConfigurationEnded(s, i, succeeds), id, late || BuildsLate(s, Configured(i, succeeds), id))
  {}

  lemma LateThroughRequest(s: State, a: Action, id: JobId, late: bool)
    requires Enabled(s, a) && LateOk(s, id, late) && IsRequestStep(a)
    ensures LateOk(Step(s, a), id, late)
  {}

  lemma LateThroughOthers(s: State, a: Action, id: JobId, late: bool)
    requires Enabled(s, a) && LateOk(s, id, late) && (a.Publish? || a.NameBuild? || a.DeletionFails? || a.DeletionEnds?)
    ensures LateOk(Step(s, a), id, late)
  {}

  lemma LateStep(s: State, a: Action, id: JobId, late: bool)
    requires Inv(s) && Enabled(s, a) && LateOk(s, id, late)
    ensures LateOk(Step(s, a), id, late || BuildsLate(s, a, id))
  {
    match a
    case Configured(i, succeeds) => LateThroughConfiguration(s, i, succeeds, id, late);
    case Recheck(_, _, _) => LateThroughWrite(s, a, id, late);
    case WriteStatus => LateThroughWrite(s, a, id, late);
    case BeginPass => LateThroughMonitor(s, a, id, late);
    case Interrupt => LateThroughMonitor(s, a, id, late);
    case Check(_) => LateThroughMonitor(s, a, id, late);
    case Fetch(_) => LateThroughMonitor(s, a, id, late);
    case Close => LateThroughMonitor(s, a, id, late);
    case Leave => LateThroughMonitor(s, a, id, late);
    case Publish(_, _) => LateThroughOthers(s, a, id, late);
    case NameBuild(_, _) => LateThroughOthers(s, a, id, late);
    case DeletionFails(_) => LateThroughOthers(s, a, id, late);
    case DeletionEnds(_) => LateThroughOthers(s, a, id, late);
    case _ => LateThroughRequest(s, a, id, late);
  }

  lemma {:induction false} LateOverRuns(actions: seq<Action>, id: JobId)
    requires IsRun(Init(), actions)
    ensures LateOk(Run(Init(), actions), id, EverBuildsLate(actions, id))
  {
    if actions != [] {
      var n := |actions| - 1;
      LateOverRuns(actions[..n], id);
      InvOverRuns(actions[..n]);
      BuildsLateStep(actions, id);
      LateStep(Before(actions, n), actions[n], id, EverBuildsLate(actions[..n], id));
    }
  }

  /** A pass that nobody disturbs makes another deployment config only for a running job, which then has a second
      runner, or for a building one, whose configuration then ended after it had been deployed. */
  lemma UndisturbedRedeployment(actions: seq<Action>, id: JobId, k: nat)
    requires IsRun(Init(), actions) && RedeploysAt(actions, id, k) && !Disturbed(actions[..k], id)
    ensures var first := FirstRead(actions[..k], id);
            || (first == Some(Running) && EverRaced(actions[..k], id))
            || (first == Some(Building) && EverBuildsLate(actions[..k], id))
  {
    PrefixIsRun(actions, k);
    var s := Before(actions, k);
    RecheckFinds(actions[..k], id);
    ReadOverRuns(actions[..k], id);
    LateOverRuns(actions[..k], id);
    InvOverRuns(actions[..k]);
    assert JobOk(s.jobs[id], id in s.configuring, PlaceOf(s, id));
    if s.jobs[id].status.Running? {
      assert Live(s, id) > 0;
      SecondRunner(actions[..k], id);
    }
  }
}
