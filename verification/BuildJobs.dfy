/** Publishing and deleting virtualizations: jobs watched by runners on the single monitor thread, configured
    on a pool, and deleted by request threads and pool tasks.  Every step makes one access to what the threads share,
    a status, the active jobs or the work queue, and may submit a task to the pool along with it. */
module BuildJobs {
  import opened Prelude

  type JobId = nat

  datatype Status =
    | NotFound | Submitted | Configuring | Building | Deploying | Running | Failed | Cancelled
    | DeleteSubmitted | DeleteRequeue | DeleteDone

  /** A build status object.  The last five fields count what was started on its behalf (configurations, deployment
      configs, services, runners) and the runners that have retired.  `fetched` marks a status read from the cluster
      for a deletion, which has no publish configuration. */
  datatype Job = Job(
    openShiftName: string,
    fetched: bool,
    status: Status,
    buildName: Option<string>,
    configurations: nat,
    deployments: nat,
    services: nat,
    runners: nat,
    retired: nat)

  /** The end of a pass: the status it writes, whether its runner is queued again, and whether it starts a
      configuration. */
  datatype Effect = Effect(status: Status, again: bool, configure: bool)

  /** Where the monitor thread is: reading the status for the `at`-th of seven tests, asking the cluster for the
      build, reading the status once more for a complete build, writing a status, handing its runner on, or taking
      its job off the active ones. */
  datatype Place =
    | Idle
    | Checking(job: JobId, at: nat)
    | Fetching(job: JobId)
    | Rechecking(job: JobId)
    | Writing(job: JobId, effect: Effect)
    | Closing(job: JobId, again: bool)
    | Leaving(job: JobId)

  /** How a deletion request came by its job: among the active ones at the first look, in the cluster, or among the
      active ones at the second look. */
  datatype Kind = Took | Found | Raced

  /** A deletion request under way. */
  datatype Request =
    | SecondLook(name: string)
    | Marking(job: JobId, kind: Kind)
    | Queueing(job: JobId, kind: Kind)

  datatype State = State(
    jobs: map<JobId, Job>,
    workQueue: seq<JobId>,
    monitor: Place,
    activeJobs: map<string, JobId>,
    configuring: set<JobId>,
    deletions: map<nat, JobId>,
    requests: map<nat, Request>)

  /** What the cluster answers about a build, and about the deployment of a complete one. */
  datatype Answer = Unreachable | NoBuild | InProgress | BuildCancelled | BuildFailed | Complete
  datatype Rollout = Gone | Ready(servicesThrow: bool, connectionThrows: bool) | Progressing | Stuck

  /** What the cluster knows of a virtualization that nobody is working on. */
  datatype ClusterView = ClusterView(status: Status, buildName: Option<string>, inUse: bool)

  datatype Action =
    | Publish(id: JobId, name: string)
    | BeginPass
    | Interrupt
    | Check(task: nat)
    | Fetch(answer: Answer)
    | Recheck(secretThrows: bool, launchThrows: bool, rollout: Rollout)
    | WriteStatus
    | Close
    | Leave
    | NameBuild(id: JobId, build: string)
    | Configured(id: JobId, succeeds: bool)
    | RequestDelete(request: nat, task: nat, name: string)
    | LookAgain(request: nat, task: nat, id: JobId, found: ClusterView)
    | MarkDeleted(request: nat)
    | QueueRunner(request: nat)
    | DeletionFails(task: nat)
    | DeletionEnds(task: nat)

  // ---------------------------------------------------------------- the monitor

  const CHECKS: nat := 7

  function Init(): State { State(map[], [], Idle, map[], {}, map[], map[]) }

  predicate Busy(p: Place, id: JobId) { !p.Idle? && p.job == id }

  function SetStatus(s: State, id: JobId, status: Status): State
    requires id in s.jobs
  {
    s.(jobs := s.jobs[id := s.jobs[id].(status := status)])
  }

  function BegunPass(s: State): State {
    if !s.monitor.Idle? || s.workQueue == [] || s.workQueue[0] !in s.jobs then s
    else
      var id := s.workQueue[0];
      s.(workQueue := s.workQueue[1..], monitor := Checking(id, 0),
         activeJobs := s.activeJobs[s.jobs[id].openShiftName := id])
  }

  /** The initial delay is cut short. */
  function Interrupted(s: State): State {
    if s.monitor.Checking? && s.monitor.at == 0 then s.(monitor := Closing(s.monitor.job, false)) else s
  }

  /** One of the seven tests, each on the status of its own moment. */
  function AfterCheck(id: JobId, at: nat, status: Status): Place {
    if at == 0 then if status.DeleteSubmitted? then Closing(id, true) else Checking(id, 1)
    else if at == 1 then if status.DeleteRequeue? then Writing(id, Effect(DeleteSubmitted, true, false)) else Checking(id, 2)
    else if at == 2 then if status.DeleteDone? then Closing(id, false) else Checking(id, 3)
    else if at == 3 then if status.Failed? then Closing(id, false) else Checking(id, 4)
    else if at == 4 then if status.Cancelled? then Closing(id, false) else Checking(id, 5)
    else if at == 5 then if status.Submitted? then Writing(id, Effect(Configuring, true, true)) else Checking(id, 6)
    else if status.Configuring? then Closing(id, true)
    else Fetching(id)
  }

  /** A deletion set aside is submitted once more, before its job is marked again. */
  function Checked(s: State, task: nat): State {
    if !s.monitor.Checking? || s.monitor.job !in s.jobs then s
    else
      var (id, at) := (s.monitor.job, s.monitor.at);
      var status := s.jobs[id].status;
      s.(monitor := AfterCheck(id, at, status),
         deletions := if at == 1 && status.DeleteRequeue? then s.deletions[task := id] else s.deletions)
  }

  /** A job without a build name has no build to ask for. */
  function AfterFetch(id: JobId, build: Option<string>, answer: Answer): Place {
    if build.None? then Closing(id, false)
    else
      match answer
      case Unreachable => Closing(id, false)
      case NoBuild => Closing(id, false)
      case InProgress => Closing(id, true)
      case BuildCancelled => Writing(id, Effect(Cancelled, false, false))
      case BuildFailed => Writing(id, Effect(Failed, false, false))
      case Complete => Rechecking(id)
  }

  function FetchedBuild(s: State, answer: Answer): State {
    if !s.monitor.Fetching? || s.monitor.job !in s.jobs then s
    else s.(monitor := AfterFetch(s.monitor.job, s.jobs[s.monitor.job].buildName, answer))
  }

  /** A complete build is deployed unless the job is deploying by now; a status from the cluster has no publish
      configuration to deploy with. */
  predicate Deploys(job: Job, secretThrows: bool) { !job.status.Deploying? && !job.fetched && !secretThrows }

  function AfterRollout(job: Job, id: JobId, rollout: Rollout): (Job, Place) {
    match rollout
    case Gone => (job, Closing(id, false))
    case Ready(servicesThrow, connectionThrows) =>
      if servicesThrow then (job, Closing(id, false))
      else
        (job.(services := job.services + 1),
         if connectionThrows then Closing(id, false) else Writing(id, Effect(Running, false, false)))
    case Progressing => (job, Closing(id, true))
    case Stuck => (job, Writing(id, Effect(Failed, false, false)))
  }

  function AfterRecheck(job: Job, id: JobId, secretThrows: bool, launchThrows: bool, rollout: Rollout): (Job, Place) {
    if Deploys(job, secretThrows) then
      (job.(deployments := job.deployments + 1), Writing(id, Effect(Deploying, !launchThrows, false)))
    else if !job.status.Deploying? then (job, Closing(id, false))
    else AfterRollout(job, id, rollout)
  }

  function Rechecked(s: State, secretThrows: bool, launchThrows: bool, rollout: Rollout): State {
    if !s.monitor.Rechecking? || s.monitor.job !in s.jobs then s
    else
      var id := s.monitor.job;
      var (job, place) := AfterRecheck(s.jobs[id], id, secretThrows, launchThrows, rollout);
      s.(jobs := s.jobs[id := job], monitor := place)
  }

  /** A status write, and the configuration that starts with it. */
  function Written(job: Job, e: Effect): Job {
    job.(status := e.status, configurations := if e.configure then job.configurations + 1 else job.configurations)
  }

  function WroteStatus(s: State): State {
    if !s.monitor.Writing? || s.monitor.job !in s.jobs then s
    else
      var (id, e) := (s.monitor.job, s.monitor.effect);
      s.(jobs := s.jobs[id := Written(s.jobs[id], e)], monitor := Closing(id, e.again),
         configuring := if e.configure then s.configuring + {id} else s.configuring)
  }

  /** The runner is queued again or retires. */
  function Closed(s: State): State {
    if !s.monitor.Closing? || s.monitor.job !in s.jobs then s
    else
      var (id, again) := (s.monitor.job, s.monitor.again);
      if again then s.(workQueue := s.workQueue + [id], monitor := Leaving(id))
      else s.(jobs := s.jobs[id := s.jobs[id].(retired := s.jobs[id].retired + 1)], monitor := Leaving(id))
  }

  function Left(s: State): State {
    if !s.monitor.Leaving? || s.monitor.job !in s.jobs then s
    else s.(monitor := Idle, activeJobs := s.activeJobs - {s.jobs[s.monitor.job].openShiftName})
  }

  // ---------------------------------------------------------------- configurations, requests and deletions

  /** A configuration first names its build. */
  function NamedBuild(s: State, id: JobId, build: string): State {
    if id !in s.configuring || id !in s.jobs then s
    else s.(jobs := s.jobs[id := s.jobs[id].(buildName := Some(build))])
  }

  function ConfigurationEnded(s: State, id: JobId, succeeds: bool): State {
    if id !in s.configuring || id !in s.jobs then s
    else SetStatus(s.(configuring := s.configuring - {id}), id, if succeeds then Building else Failed)
  }

  /** The first look of a deletion request: an active job is taken over, and its deletion submitted. */
  function DeleteRequested(s: State, request: nat, task: nat, name: string): State {
    if name in s.activeJobs then
      s.(deletions := s.deletions[task := s.activeJobs[name]], requests := s.requests[request := Marking(s.activeJobs[name], Took)])
    else s.(requests := s.requests[request := SecondLook(name)])
  }

  function FoundJob(name: string, found: ClusterView): Job { Job(name, true, found.status, found.buildName, 0, 0, 0, 0, 0) }

  /** The second look finds a job that has become active meanwhile, or else the state in the cluster becomes a new
      job.  (The scan of the work queue that belongs to both looks finds nothing: the queue holds the futures that wrap
      the runners.)  A running virtualization that integrations use is left alone. */
  function LookedAgain(s: State, request: nat, task: nat, id: JobId, found: ClusterView): State {
    if request !in s.requests || !s.requests[request].SecondLook? then s
    else
      var name := s.requests[request].name;
      if name in s.activeJobs then
        s.(deletions := s.deletions[task := s.activeJobs[name]], requests := s.requests[request := Marking(s.activeJobs[name], Raced)])
      else if found.status.NotFound? || found.inUse then s.(requests := s.requests - {request})
      else
        s.(jobs := s.jobs[id := FoundJob(name, found)], deletions := s.deletions[task := id],
           requests := s.requests[request := Marking(id, Found)])
  }

  /** The request marks its job, and queues a runner for a job that was not active at the first look. */
  function Marked(s: State, request: nat): State {
    if request !in s.requests || !s.requests[request].Marking? || s.requests[request].job !in s.jobs then s
    else
      var r := s.requests[request];
      SetStatus(s.(requests := if r.kind.Took? then s.requests - {request} else s.requests[request := Queueing(r.job, r.kind)]),
                r.job, DeleteSubmitted)
  }

  function QueuedRunner(s: State, request: nat): State {
    if request !in s.requests || !s.requests[request].Queueing? || s.requests[request].job !in s.jobs then s
    else
      var id := s.requests[request].job;
      s.(jobs := s.jobs[id := s.jobs[id].(runners := s.jobs[id].runners + 1)], workQueue := s.workQueue + [id],
         requests := s.requests - {request})
  }

  function DeletionFailed(s: State, task: nat): State {
    if task in s.deletions && s.deletions[task] in s.jobs then SetStatus(s, s.deletions[task], DeleteRequeue) else s
  }

  function DeletionEnded(s: State, task: nat): State {
    if task in s.deletions && s.deletions[task] in s.jobs
    then SetStatus(s.(deletions := s.deletions - {task}), s.deletions[task], DeleteDone) else s
  }

  function Published(s: State, id: JobId, name: string): State {
    if name in s.activeJobs && s.activeJobs[name] in s.jobs && s.jobs[s.activeJobs[name]].status.Building? then s
    else s.(jobs := s.jobs[id := Job(name, false, Submitted, None, 0, 0, 0, 1, 0)], workQueue := s.workQueue + [id])
  }

  function Step(s: State, a: Action): State {
    match a
    case Publish(id, name) => Published(s, id, name)
    case BeginPass => BegunPass(s)
    case Interrupt => Interrupted(s)
    case Check(task) => Checked(s, task)
    case Fetch(answer) => FetchedBuild(s, answer)
    case Recheck(secretThrows, launchThrows, rollout) => Rechecked(s, secretThrows, launchThrows, rollout)
    case WriteStatus => WroteStatus(s)
    case Close => Closed(s)
    case Leave => Left(s)
    case NameBuild(id, build) => NamedBuild(s, id, build)
    case Configured(id, succeeds) => ConfigurationEnded(s, id, succeeds)
    case RequestDelete(request, task, name) => DeleteRequested(s, request, task, name)
    case LookAgain(request, task, id, found) => LookedAgain(s, request, task, id, found)
    case MarkDeleted(request) => Marked(s, request)
    case QueueRunner(request) => QueuedRunner(s, request)
    case DeletionFails(task) => DeletionFailed(s, task)
    case DeletionEnds(task) => DeletionEnded(s, task)
  }

  /** Objects, tasks and requests are created afresh, and a configuration names its build before it succeeds. */
  predicate Enabled(s: State, a: Action) {
    match a
    case Publish(id, _) => id !in s.jobs
    case Check(task) => task !in s.deletions
    case Configured(id, succeeds) => id in s.jobs && succeeds ==> s.jobs[id].buildName.Some?
    case RequestDelete(request, task, _) => task !in s.deletions && request !in s.requests
    case LookAgain(_, task, id, _) => id !in s.jobs && task !in s.deletions
    case _ => true
  }

  function Run(s: State, actions: seq<Action>): State {
    if actions == [] then s else Step(Run(s, actions[..|actions| - 1]), actions[|actions| - 1])
  }

  predicate IsRun(s: State, actions: seq<Action>) {
    actions == [] ||
    var n := |actions| - 1;
    IsRun(s, actions[..n]) && Enabled(Run(s, actions[..n]), actions[n])
  }

  // ---------------------------------------------------------------- the invariant

  /** The monitor holds a runner of the job. */
  predicate Runs(p: Place, id: JobId) { Busy(p, id) && !p.Leaving? }

  /** The runners of a job that have not retired. */
  function Live(s: State, id: JobId): nat { multiset(s.workQueue)[id] + if Runs(s.monitor, id) then 1 else 0 }

  predicate Deleting(status: Status) { status.DeleteSubmitted? || status.DeleteRequeue? || status.DeleteDone? }

  /** Queue and monitor refer to jobs, and exactly the job on the monitor is active. */
  ghost predicate PlacesOk(s: State) {
    && (forall id | id in s.workQueue :: id in s.jobs)
    && (!s.monitor.Idle? ==> s.monitor.job in s.jobs)
    && (s.monitor.Checking? ==> s.monitor.at < CHECKS)
    && s.activeJobs == (if s.monitor.Idle? then map[] else map[s.jobs[s.monitor.job].openShiftName := s.monitor.job])
  }

  /** Every runner that was ever started is queued, on the monitor, or retired. */
  ghost predicate RunnersOk(s: State) {
    forall id | id in s.jobs :: Live(s, id) + s.jobs[id].retired == s.jobs[id].runners
  }

  /** A request that has found its job in the cluster is the only such one for it, and will queue its first runner; one
      that has lost a race has a job with a runner. */
  ghost predicate RequestOk(s: State, r: Request) {
    match r
    case SecondLook(_) => true
    case Marking(id, kind) => id in s.jobs && (kind.Found? ==> s.jobs[id].fetched) && (kind.Found? <==> s.jobs[id].runners == 0)
    case Queueing(id, kind) =>
      && id in s.jobs && !kind.Took? && (kind.Found? ==> s.jobs[id].fetched && Deleting(s.jobs[id].status))
      && (kind.Found? <==> s.jobs[id].runners == 0)
  }

  predicate Finds(r: Request) { !r.SecondLook? && r.kind.Found? }

  ghost predicate RequestsOk(s: State) {
    && (forall q | q in s.requests :: RequestOk(s, s.requests[q]))
    && (forall q, r | q in s.requests && r in s.requests && q != r && Finds(s.requests[q]) && Finds(s.requests[r]) ::
          s.requests[q].job != s.requests[r].job)
    && (forall id | id in s.jobs && !s.jobs[id].fetched :: s.jobs[id].runners > 0)
  }

  /** The life of one job.  `configuring` says whether its configuration is in progress, `place` where the monitor is
      if it works on the job. */
  predicate JobOk(job: Job, configuring: bool, place: Place) {
    && job.configurations <= 1 && (job.services > 0 ==> job.deployments > 0)
    && job.services <= job.retired + (if EndsRunner(place) then 1 else 0)
    && (job.fetched ==> job.configurations == 0 && job.deployments == 0)
    && (job.fetched && job.runners > 0 ==> Deleting(job.status) || job.status.Failed? || job.status.Cancelled?)
    && (configuring ==> !job.fetched && job.configurations == 1)
    && (!job.fetched && job.status.Submitted? ==> job.configurations == 0 && job.deployments == 0 && job.buildName.None?)
    && (!job.fetched && (job.status.Building? || job.status.Deploying?) ==> job.buildName.Some?)
    && (!job.fetched && job.status.Deploying? ==> job.deployments > 0)
    && (!job.fetched && job.status.Running? ==> job.retired > 0 || (place.Closing? && !place.again))
    && (!job.fetched ==> !job.status.NotFound?)
    && PlaceOk(job, configuring, place)
  }

  /** The pass under way is the last of its runner. */
  predicate EndsRunner(place: Place) { (place.Writing? && !place.effect.again) || (place.Closing? && !place.again) }

  predicate PlaceOk(job: Job, configuring: bool, place: Place) {
    && (!place.Idle? ==> job.runners > 0)
    && (place.Rechecking? ==> job.buildName.Some?)
    && (place.Writing? ==> EffectOk(job, configuring, place.effect))
  }

  /** What a pass may be about to write. */
  predicate EffectOk(job: Job, configuring: bool, e: Effect) {
    && (e.configure <==> e.status.Configuring?)
    && match e.status
       case Configuring => e.again && !job.fetched && !configuring && job.configurations == 0
       case DeleteSubmitted => e.again
       case Deploying => !job.fetched && job.deployments > 0 && job.buildName.Some?
       case Running => !e.again && !job.fetched
       case Failed => !e.again
       case Cancelled => !e.again
       case _ => false
  }

  function PlaceOf(s: State, id: JobId): Place { if Busy(s.monitor, id) then s.monitor else Idle }

  ghost predicate JobsOk(s: State) {
    && (forall id | id in s.jobs :: JobOk(s.jobs[id], id in s.configuring, PlaceOf(s, id)))
    && (forall id | id in s.configuring :: id in s.jobs)
    && (forall t | t in s.deletions :: s.deletions[t] in s.jobs)
  }

  ghost predicate Inv(s: State) { PlacesOk(s) && RunnersOk(s) && RequestsOk(s) && JobsOk(s) }
}
