/** The monitor of publishing jobs in the program's own form: status objects changed by setters, maps and queues.
    Each method runs from its first statement to its last, as it does when no other thread comes in between, and is
    proved to take the steps of the job specification one after the other. */
module BuildMonitors {
  import opened Prelude
  import opened BuildJobs
  import opened BuildJobDeployments

  // ---------------------------------------------------------------- a pass that nobody disturbs

  /** What the cluster answers in one pass, and where exceptions cut it short. */
  datatype Cluster = Cluster(interrupted: bool, answer: Answer, secretThrows: bool, launchThrows: bool, rollout: Rollout)

  /** The outcome of a pass: the job, whether its runner goes on, whether a configuration starts, and whether the
      deletion is submitted once more. */
  datatype Verdict = Verdict(job: Job, again: bool, configure: bool, resubmit: bool)

  function Keep(job: Job, again: bool): Verdict { Verdict(job, again, false, false) }

  function Write(job: Job, status: Status, again: bool): Verdict { Verdict(job.(status := status), again, false, false) }

  /** A job whose build is complete. */
  function Rollouts(job: Job, cluster: Cluster): Verdict {
    if Deploys(job, cluster.secretThrows) then Write(job.(deployments := job.deployments + 1), Deploying, !cluster.launchThrows)
    else if !job.status.Deploying? then Keep(job, false)
    else
      match cluster.rollout
      case Gone => Keep(job, false)
      case Ready(servicesThrow, connectionThrows) =>
        if servicesThrow then Keep(job, false)
        else if connectionThrows then Keep(job.(services := job.services + 1), false)
        else Write(job.(services := job.services + 1), Running, false)
      case Progressing => Keep(job, true)
      case Stuck => Write(job, Failed, false)
  }

  /** The part of a pass that consults the cluster. */
  function Watch(job: Job, cluster: Cluster): Verdict {
    if job.buildName.None? then Keep(job, false)
    else
      match cluster.answer
      case Unreachable => Keep(job, false)
      case NoBuild => Keep(job, false)
      case InProgress => Keep(job, true)
      case BuildCancelled => Write(job, Cancelled, false)
      case BuildFailed => Write(job, Failed, false)
      case Complete => Rollouts(job, cluster)
  }

  /** A pass judges its job by one status. */
  function Judge(job: Job, cluster: Cluster): Verdict {
    if cluster.interrupted then Keep(job, false)
    else
      match job.status
      case DeleteSubmitted => Keep(job, true)
      case DeleteRequeue => Verdict(job.(status := DeleteSubmitted), true, false, true)
      case DeleteDone => Keep(job, false)
      case Failed => Keep(job, false)
      case Cancelled => Keep(job, false)
      case Submitted => Verdict(job.(status := Configuring, configurations := job.configurations + 1), true, true, false)
      case Configuring => Keep(job, true)
      case _ => Watch(job, cluster)
  }

  /** The job of a runner whose pass is over. */
  function Ended(job: Job, again: bool): Job { if again then job else job.(retired := job.retired + 1) }

  /** The whole pass over the first job of the queue, judged by one status. */
  function PassedOver(s: State, cluster: Cluster, task: nat): State
    requires s.workQueue != [] && s.workQueue[0] in s.jobs
  {
    var id := s.workQueue[0];
    var v := Judge(s.jobs[id], cluster);
    s.(jobs := s.jobs[id := Ended(v.job, v.again)],
       workQueue := s.workQueue[1..] + if v.again then [id] else [],
       activeJobs := s.activeJobs[s.jobs[id].openShiftName := id] - {s.jobs[id].openShiftName},
       configuring := if v.configure then s.configuring + {id} else s.configuring,
       deletions := if v.resubmit then s.deletions[task := id] else s.deletions)
  }

  /** The tests of a pass in a row, up to the one that stops it. */
  function AllTests(s: State, task: nat): State
    decreases if s.monitor.Checking? then CHECKS + 1 - s.monitor.at else 0
  {
    if !s.monitor.Checking? || s.monitor.job !in s.jobs || s.monitor.at >= CHECKS then s else AllTests(Checked(s, task), task)
  }

  /** The rest of a pass after its tests. */
  function Rest(s: State, cluster: Cluster): State {
    Left(Closed(WroteStatus(Rechecked(FetchedBuild(s, cluster.answer), cluster.secretThrows, cluster.launchThrows, cluster.rollout))))
  }

  /** The steps of a pass in a row; each does nothing if the pass has ended before. */
  function Steps(s: State, cluster: Cluster, task: nat): State {
    var begun := BegunPass(s);
    Rest(AllTests(if cluster.interrupted then Interrupted(begun) else begun, task), cluster)
  }

  /** Where the tests end, if all of them read the same status. */
  function TestsEnd(id: JobId, status: Status): Place {
    match status
    case DeleteSubmitted => Closing(id, true)
    case DeleteRequeue => Writing(id, Effect(DeleteSubmitted, true, false))
    case DeleteDone => Closing(id, false)
    case Failed => Closing(id, false)
    case Cancelled => Closing(id, false)
    case Submitted => Writing(id, Effect(Configuring, true, true))
    case Configuring => Closing(id, true)
    case _ => Fetching(id)
  }

  lemma TestPassed(s: State, id: JobId, at: nat, task: nat)
    requires s.monitor == Checking(id, at) && at < CHECKS && id in s.jobs && Passes(s.jobs[id].status, at + 1)
    ensures Checked(s, task) == s.(monitor := if at + 1 == CHECKS then Fetching(id) else Checking(id, at + 1))
  {}

  lemma TestStops(s: State, id: JobId, at: nat, task: nat)
    requires s.monitor == Checking(id, at) && at < CHECKS && id in s.jobs && !Passes(s.jobs[id].status, at + 1) && Passes(s.jobs[id].status, at)
    ensures Checked(s, task) == s.(monitor := TestsEnd(id, s.jobs[id].status),
                                   deletions := if s.jobs[id].status.DeleteRequeue? then s.deletions[task := id] else s.deletions)
    ensures !Checked(s, task).monitor.Checking?
  {}

  lemma {:induction false} TestsFrom(s: State, id: JobId, at: nat, task: nat)
    requires s.monitor == Checking(id, at) && at < CHECKS && id in s.jobs && Passes(s.jobs[id].status, at)
    ensures AllTests(s, task)
            == s.(monitor := TestsEnd(id, s.jobs[id].status),
                  deletions := if s.jobs[id].status.DeleteRequeue? then s.deletions[task := id] else s.deletions)
    decreases CHECKS - at
  {
    if Passes(s.jobs[id].status, at + 1) {
      TestPassed(s, id, at, task);
      if at + 1 < CHECKS { TestsFrom(Checked(s, task), id, at + 1, task); }
    } else {
      TestStops(s, id, at, task);
    }
  }

  /** The end of a pass: the job is as the verdict says, and its runner queued again or retired. */
  function Settled(s: State, id: JobId, v: Verdict): State
    requires id in s.jobs
  {
    s.(jobs := s.jobs[id := Ended(v.job, v.again)], workQueue := s.workQueue + if v.again then [id] else [],
       monitor := Idle, activeJobs := s.activeJobs - {s.jobs[id].openShiftName},
       configuring := if v.configure then s.configuring + {id} else s.configuring)
  }

  lemma PutTwice(jobs: map<JobId, Job>, id: JobId, first: Job, second: Job)
    ensures jobs[id := first][id := second] == jobs[id := second]
  {}

  lemma SettlesFromClosing(s: State, id: JobId, again: bool)
    requires s.monitor == Closing(id, again) && id in s.jobs
    ensures Left(Closed(s)) == Settled(s, id, Keep(s.jobs[id], again))
  {
    assert s.jobs[id := s.jobs[id]] == s.jobs && s.workQueue + [] == s.workQueue;
  }

  lemma SettlesFromWriting(s: State, id: JobId, e: Effect)
    requires s.monitor == Writing(id, e) && id in s.jobs
    ensures Left(Closed(WroteStatus(s))) == Settled(s, id, Verdict(Written(s.jobs[id], e), e.again, e.configure, false))
  {
    var s1 := WroteStatus(s);
    SettlesFromClosing(s1, id, e.again);
    PutTwice(s.jobs, id, Written(s.jobs[id], e), Ended(Written(s.jobs[id], e), e.again));
  }

  /** A change of the job does not matter to what settling makes of it. */
  lemma SettlesAll(s: State, s1: State, id: JobId, v: Verdict)
    requires id in s.jobs && id in s1.jobs && s1 == s.(jobs := s.jobs[id := s1.jobs[id]], monitor := s1.monitor)
    requires s1.jobs[id].openShiftName == s.jobs[id].openShiftName
    ensures Settled(s1, id, v) == Settled(s, id, v)
  {
    PutTwice(s.jobs, id, s1.jobs[id], Ended(v.job, v.again));
  }

  lemma SettlesFromRechecking(s: State, id: JobId, cluster: Cluster)
    requires s.monitor == Rechecking(id) && id in s.jobs
    ensures Left(Closed(WroteStatus(Rechecked(s, cluster.secretThrows, cluster.launchThrows, cluster.rollout))))
            == Settled(s, id, Rollouts(s.jobs[id], cluster))
  {
    var s1 := Rechecked(s, cluster.secretThrows, cluster.launchThrows, cluster.rollout);
    SettlesAll(s, s1, id, Rollouts(s.jobs[id], cluster));
    if s1.monitor.Writing? {
      SettlesFromWriting(s1, id, s1.monitor.effect);
    } else {
      SettlesFromClosing(s1, id, s1.monitor.again);
      assert WroteStatus(s1) == s1;
    }
  }

  lemma SettlesFromFetching(s: State, id: JobId, cluster: Cluster)
    requires s.monitor == Fetching(id) && id in s.jobs
    ensures Rest(s, cluster) == Settled(s, id, Watch(s.jobs[id], cluster))
  {
    var s1 := FetchedBuild(s, cluster.answer);
    assert s1 == s.(monitor := s1.monitor);
    match s1.monitor
    case Rechecking(_) => SettlesFromRechecking(s1, id, cluster);
    case Writing(_, e) => SettlesFromWriting(s1, id, e);
    case Closing(_, again) => SettlesFromClosing(s1, id, again);
  }

  lemma SettlesFromTests(s: State, id: JobId, cluster: Cluster)
    requires id in s.jobs && s.monitor == TestsEnd(id, s.jobs[id].status) && !cluster.interrupted
    ensures Rest(s, cluster) == Settled(s, id, Judge(s.jobs[id], cluster))
  {
    match s.monitor
    case Fetching(_) => SettlesFromFetching(s, id, cluster);
    case Writing(_, e) => SettlesFromWriting(s, id, e);
    case Closing(_, again) => SettlesFromClosing(s, id, again);
  }

  /** What settling makes of a pass that has begun. */
  lemma BegunAndSettled(s: State, t: State, id: JobId, v: Verdict, task: nat)
    requires s.monitor.Idle? && s.workQueue != [] && s.workQueue[0] == id && id in s.jobs
    requires t == BegunPass(s).(monitor := t.monitor, deletions := if v.resubmit then s.deletions[task := id] else s.deletions)
    ensures Settled(t, id, v) == s.(jobs := s.jobs[id := Ended(v.job, v.again)],
                                    workQueue := s.workQueue[1..] + if v.again then [id] else [],
                                    activeJobs := s.activeJobs[s.jobs[id].openShiftName := id] - {s.jobs[id].openShiftName},
                                    configuring := if v.configure then s.configuring + {id} else s.configuring,
                                    deletions := if v.resubmit then s.deletions[task := id] else s.deletions)
  {}

  lemma InterruptedPass(s: State, cluster: Cluster, task: nat)
    requires s.monitor.Idle? && s.workQueue != [] && s.workQueue[0] in s.jobs && cluster.interrupted
    ensures Steps(s, cluster, task) == PassedOver(s, cluster, task)
  {
    var id, cut := s.workQueue[0], Interrupted(BegunPass(s));
    SettlesFromClosing(cut, id, false);
    BegunAndSettled(s, cut, id, Judge(s.jobs[id], cluster), task);
    assert Rest(cut, cluster) == Left(Closed(cut));
  }

  lemma ResubmitsOnRequeue(job: Job, cluster: Cluster)
    requires !cluster.interrupted
    ensures Judge(job, cluster).resubmit <==> job.status.DeleteRequeue?
  {}

  /** The tests and the rest of a pass that has begun. */
  lemma TestedPass(begun: State, t: State, id: JobId, cluster: Cluster, task: nat)
    requires begun.monitor == Checking(id, 0) && id in begun.jobs && !cluster.interrupted && t == AllTests(begun, task)
    ensures t == begun.(monitor := t.monitor,
                        deletions := if Judge(begun.jobs[id], cluster).resubmit then begun.deletions[task := id] else begun.deletions)
    ensures t.monitor == TestsEnd(id, begun.jobs[id].status)
  {
    TestsFrom(begun, id, 0, task);
    ResubmitsOnRequeue(begun.jobs[id], cluster);
  }

  lemma UninterruptedPass(s: State, t: State, cluster: Cluster, task: nat)
    requires s.monitor.Idle? && s.workQueue != [] && s.workQueue[0] in s.jobs && !cluster.interrupted
    requires t == AllTests(BegunPass(s), task)
    ensures Rest(t, cluster) == PassedOver(s, cluster, task)
  {
    var id := s.workQueue[0];
    TestedPass(BegunPass(s), t, id, cluster, task);
    SettlesFromTests(t, id, cluster);
    BegunAndSettled(s, t, id, Judge(s.jobs[id], cluster), task);
  }

  /** A pass that nobody disturbs takes its steps as if it judged the job by one status. */
  lemma PassIsItsSteps(s: State, cluster: Cluster, task: nat)
    requires s.monitor.Idle? && s.workQueue != [] && s.workQueue[0] in s.jobs
    ensures Steps(s, cluster, task) == PassedOver(s, cluster, task)
  {
    if cluster.interrupted {
      InterruptedPass(s, cluster, task);
    } else {
      UninterruptedPass(s, AllTests(BegunPass(s), task), cluster, task);
    }
  }

  /** So it never makes another deployment config for a job that is deploying. */
  lemma UndisturbedPass(s: State, cluster: Cluster, task: nat)
    requires s.monitor.Idle? && s.workQueue != [] && s.workQueue[0] in s.jobs
    ensures var id := s.workQueue[0];
            Deployments(Steps(s, cluster, task), id) > Deployments(s, id) ==>
            s.jobs[id].status.Building? || s.jobs[id].status.Running? || s.jobs[id].status.NotFound?
  {
    PassIsItsSteps(s, cluster, task);
  }

  // ---------------------------------------------------------------- the classes

  class BuildStatus {
    const openShiftName: string
    const fetched: bool
    var status: Status
    var name: Option<string>
    var configurations: nat
    var deployments: nat
    var services: nat
    ghost var runners: nat
    ghost var retired: nat

    constructor (job: Job)
      ensures Value() == job
    {
      openShiftName, fetched, status, name := job.openShiftName, job.fetched, job.status, job.buildName;
      configurations, deployments, services := job.configurations, job.deployments, job.services;
      runners, retired := job.runners, job.retired;
    }

    ghost function Value(): Job
      reads this
    {
      Job(openShiftName, fetched, status, name, configurations, deployments, services, runners, retired)
    }
  }

  class BuildMonitor {
    var jobs: map<JobId, BuildStatus>
    var workQueue: seq<JobId>
    var activeJobs: map<string, JobId>
    var configuring: set<JobId>
    var deletions: map<nat, JobId>
    /** where the monitor thread and the other requests are meanwhile */
    ghost var monitor: Place
    ghost var requests: map<nat, Request>

    /** Distinct jobs are distinct objects. */
    ghost predicate Valid()
      reads this
    {
      forall i, j | i in jobs && j in jobs && i != j :: jobs[i] != jobs[j]
    }

    ghost function JobValues(): map<JobId, Job>
      reads `jobs, jobs.Values
    {
      map id | id in jobs :: jobs[id].Value()
    }

    ghost function View(): State
      reads this, jobs.Values
    {
      State(JobValues(), workQueue, monitor, activeJobs, configuring, deletions, requests)
    }

    constructor ()
      ensures Valid() && View() == Init()
    {
      jobs, workQueue, activeJobs := map[], [], map[];
      configuring, deletions, monitor, requests := {}, map[], Idle, map[];
    }

    method AddJob(id: JobId, work: BuildStatus)
      requires Valid() && id !in jobs && forall i | i in jobs :: jobs[i] != work
      modifies `jobs
      ensures Valid() && jobs == old(jobs)[id := work] && JobValues() == old(JobValues())[id := work.Value()]
    {
      ghost var before := JobValues();
      jobs := jobs[id := work];
      assert JobValues() == before[id := work.Value()];
    }

    method AddToQueue(id: JobId, openShiftName: string)
      requires Valid() && id !in jobs
      modifies `jobs, `workQueue
      ensures Valid()
      ensures View() == old(View()).(jobs := old(View()).jobs[id := Job(openShiftName, false, Submitted, None, 0, 0, 0, 1, 0)],
                                     workQueue := old(workQueue) + [id])
    {
      var work := new BuildStatus(Job(openShiftName, false, Submitted, None, 0, 0, 0, 1, 0));
      AddJob(id, work);
      workQueue := workQueue + [id];
    }

    /** A request changes nothing while the active job of that name is building, or, if none is active, while the
        cluster says so; `building` is what it says.  Any other request adds a submitted job with a runner. */
    method PublishVirtualization(id: JobId, openShiftName: string, building: bool)
      requires Valid() && id !in jobs
      modifies `jobs, `workQueue
      ensures Valid()
      ensures var refused := if openShiftName in activeJobs then
                               activeJobs[openShiftName] in old(jobs) && old(jobs[activeJobs[openShiftName]].status) == Building
                             else building;
              View() == if refused then old(View())
                        else old(View()).(jobs := old(View()).jobs[id := Job(openShiftName, false, Submitted, None, 0, 0, 0, 1, 0)],
                                          workQueue := old(workQueue) + [id])
    {
      if openShiftName !in activeJobs && building {
        return;
      }
      if openShiftName in activeJobs && activeJobs[openShiftName] in jobs && jobs[activeJobs[openShiftName]].status.Building? {
        return;
      }
      AddToQueue(id, openShiftName);
    }

    /** The body of a runner; the job object is changed in place. */
    method Judging(work: BuildStatus, cluster: Cluster) returns (again: bool, configure: bool, resubmit: bool)
      modifies work
      ensures Verdict(work.Value(), again, configure, resubmit) == Judge(old(work.Value()), cluster)
    {
      again, configure, resubmit := false, false, false;
      if cluster.interrupted {
        return;
      }
      if work.status.DeleteSubmitted? {
        again := true;
        return;
      }
      if work.status.DeleteRequeue? {
        resubmit := true;
        work.status := DeleteSubmitted;
        again := true;
        return;
      }
      if work.status.DeleteDone? {
        return;
      }
      if work.status.Failed? || work.status.Cancelled? {
        return;
      }
      if work.status.Submitted? {
        work.status := Configuring;
        work.configurations := work.configurations + 1;
        configure := true;
        again := true;
        return;
      }
      if work.status.Configuring? {
        again := true;
        return;
      }
      again := Watching(work, cluster);
    }

    method Watching(work: BuildStatus, cluster: Cluster) returns (again: bool)
      modifies work
      ensures Verdict(work.Value(), again, false, false) == Watch(old(work.Value()), cluster)
    {
      again := false;
      if work.name.None? || cluster.answer.Unreachable? || cluster.answer.NoBuild? {
        return;
      }
      var shouldReQueue := true;
      if cluster.answer.Complete? {
        if !work.status.Deploying? {
          if work.fetched || cluster.secretThrows {
            return;
          }
          work.deployments := work.deployments + 1;
          work.status := Deploying;
          if cluster.launchThrows {
            return;
          }
        } else {
          match cluster.rollout {
            case Gone => return;
            case Ready(servicesThrow, connectionThrows) =>
              if servicesThrow {
                return;
              }
              work.services := work.services + 1;
              if connectionThrows {
                return;
              }
              work.status := Running;
              shouldReQueue := false;
            case Progressing =>
            case Stuck =>
              work.status := Failed;
              shouldReQueue := false;
          }
        }
      } else if cluster.answer.BuildCancelled? {
        shouldReQueue := false;
        work.status := Cancelled;
      } else if cluster.answer.BuildFailed? {
        shouldReQueue := false;
        work.status := Failed;
      }
      again := shouldReQueue;
    }

    /** The monitor thread takes the next runner and runs it. */
    method RunPass(cluster: Cluster, task: nat)
      requires Valid() && monitor.Idle? && workQueue != [] && workQueue[0] in jobs
      modifies this, jobs[workQueue[0]]
      ensures Valid() && jobs == old(jobs)
      ensures View() == Steps(old(View()), cluster, task)
    {
      PassIsItsSteps(View(), cluster, task);
      RunNext(cluster, task);
    }

    method RunNext(cluster: Cluster, task: nat)
      requires Valid() && monitor.Idle? && workQueue != [] && workQueue[0] in jobs
      modifies `workQueue, `configuring, `deletions, `activeJobs, jobs[workQueue[0]]
      ensures Valid() && View() == PassedOver(old(View()), cluster, task)
    {
      var id := workQueue[0];
      workQueue := workQueue[1..];
      activeJobs := activeJobs[jobs[id].openShiftName := id];
      var again, configure, resubmit := JudgeJob(id, cluster);
      EndPass(id, again, configure, resubmit, task);
    }

    method JudgeJob(id: JobId, cluster: Cluster) returns (again: bool, configure: bool, resubmit: bool)
      requires Valid() && id in jobs
      modifies jobs[id]
      ensures var v := Judge(old(JobValues())[id], cluster);
              && JobValues() == old(JobValues())[id := Ended(v.job, v.again)]
              && again == v.again && configure == v.configure && resubmit == v.resubmit
    {
      ghost var before := JobValues();
      var work := jobs[id];
      again, configure, resubmit := Judging(work, cluster);
      if !again { work.retired := work.retired + 1; }
      assert JobValues() == before[id := work.Value()];
    }

    /** What a pass leaves behind in the queues. */
    method EndPass(id: JobId, again: bool, configure: bool, resubmit: bool, task: nat)
      requires id in jobs
      modifies `workQueue, `configuring, `deletions, `activeJobs
      ensures JobValues() == old(JobValues())
      ensures workQueue == old(workQueue) + if again then [id] else []
      ensures configuring == if configure then old(configuring) + {id} else old(configuring)
      ensures deletions == if resubmit then old(deletions)[task := id] else old(deletions)
      ensures activeJobs == old(activeJobs) - {jobs[id].openShiftName}
    {
      workQueue := workQueue + if again then [id] else [];
      configuring := if configure then configuring + {id} else configuring;
      deletions := if resubmit then deletions[task := id] else deletions;
      activeJobs := activeJobs - {jobs[id].openShiftName};
    }

    /** The end of a configuration, with a build or with an exception. */
    method ConfigureBuild(id: JobId, build: Option<string>)
      requires Valid() && id in configuring && id in jobs
      modifies this, jobs[id]
      ensures Valid() && jobs == old(jobs)
      ensures View() == ConfigurationEnded(if build.Some? then NamedBuild(old(View()), id, build.value) else old(View()), id, build.Some?)
    {
      var work := jobs[id];
      ghost var before := JobValues();
      configuring := configuring - {id};
      if build.Some? {
        work.name := build;
        work.status := Building;
      } else {
        work.status := Failed;
      }
      assert JobValues() == before[id := work.Value()];
    }

    /** A deletion request from its first look to the runner it queues. */
    method DeleteVirtualization(request: nat, task: nat, name: string, id: JobId, found: ClusterView)
      requires Valid() && id !in jobs && request !in requests
      requires name in activeJobs ==> activeJobs[name] in jobs
      modifies this, jobs.Values
      ensures Valid()
      ensures View() == RequestSteps(old(View()), request, task, name, id, found)
    {
      ghost var s := View();
      if name in activeJobs {
        TakeOver(activeJobs[name], task);
        TakenOver(s, request, task, name, id, found);
      } else if found.status.NotFound? || found.inUse {
        NothingRequested(s, request, task, name, id, found);
      } else {
        AddFound(id, task, name, found);
        FoundAndQueued(s, request, task, name, id, found);
      }
    }

    method TakeOver(id: JobId, task: nat)
      requires Valid() && id in jobs
      modifies `deletions, jobs[id]
      ensures Valid() && View() == SetStatus(old(View()).(deletions := old(deletions)[task := id]), id, DeleteSubmitted)
    {
      deletions := deletions[task := id];
      MarkJob(id, false);
    }

    /** The status read from the cluster becomes a job, with a runner of its own. */
    method AddFound(id: JobId, task: nat, name: string, found: ClusterView)
      requires Valid() && id !in jobs
      modifies `jobs, `deletions, `workQueue
      ensures Valid()
      ensures View() == old(View()).(jobs := old(View()).jobs[id := FoundJob(name, found).(status := DeleteSubmitted, runners := 1)],
                                     workQueue := old(workQueue) + [id], deletions := old(deletions)[task := id])
    {
      ghost var before := JobValues();
      var work := new BuildStatus(FoundJob(name, found));
      AddJob(id, work);
      MarkJob(id, true);
      PutTwice(before, id, FoundJob(name, found), FoundJob(name, found).(status := DeleteSubmitted, runners := 1));
      assert JobValues() == before[id := FoundJob(name, found).(status := DeleteSubmitted, runners := 1)];
      deletions := deletions[task := id];
      workQueue := workQueue + [id];
    }

    method MarkJob(id: JobId, ghost queue: bool)
      requires Valid() && id in jobs
      modifies jobs[id]
      ensures JobValues() == old(JobValues())[id := Queued(old(JobValues())[id].(status := DeleteSubmitted), queue)]
    {
      var work := jobs[id];
      ghost var before := JobValues();
      work.status := DeleteSubmitted;
      if queue { work.runners := work.runners + 1; }
      assert JobValues() == before[id := work.Value()];
    }

    /** A deletion task: a step that fails sets its job aside, but the job is done in the end all the same. */
    method DeleteResources(task: nat, fails: bool)
      requires Valid() && task in deletions && deletions[task] in jobs
      modifies `deletions, jobs[deletions[task]]
      ensures Valid()
      ensures View() == DeletionEnded(if fails then DeletionFailed(old(View()), task) else old(View()), task)
    {
      var id := deletions[task];
      ghost var before := JobValues();
      if fails {
        jobs[id].status := DeleteRequeue;
      }
      deletions := deletions - {task};
      jobs[id].status := DeleteDone;
      assert JobValues() == before[id := jobs[id].Value()];
    }
  }

  ghost function Queued(job: Job, queue: bool): Job { if queue then job.(runners := job.runners + 1) else job }

  /** The steps of a request in a row; each does nothing if the request has ended before. */
  function RequestSteps(s: State, request: nat, task: nat, name: string, id: JobId, found: ClusterView): State {
    QueuedRunner(Marked(LookedAgain(DeleteRequested(s, request, task, name), request, task, id, found), request), request)
  }

  lemma RequestGone(requests: map<nat, Request>, request: nat, r: Request)
    requires request !in requests
    ensures requests[request := r] - {request} == requests
  {}

  /** The steps of a request that finds nothing to delete. */
  lemma NothingRequested(s: State, request: nat, task: nat, name: string, id: JobId, found: ClusterView)
    requires request !in s.requests && name !in s.activeJobs && (found.status.NotFound? || found.inUse)
    ensures RequestSteps(s, request, task, name, id, found) == s
  {
    RequestGone(s.requests, request, SecondLook(name));
  }

  /** Of one that takes an active job. */
  lemma TakenOver(s: State, request: nat, task: nat, name: string, id: JobId, found: ClusterView)
    requires request !in s.requests && name in s.activeJobs && s.activeJobs[name] in s.jobs
    ensures var job := s.activeJobs[name];
            RequestSteps(s, request, task, name, id, found)
            == SetStatus(s.(deletions := s.deletions[task := job]), job, DeleteSubmitted)
  {
    RequestGone(s.requests, request, Marking(s.activeJobs[name], Took));
  }

  /** Of one that makes a job of what the cluster knows. */
  lemma FoundAndQueued(s: State, request: nat, task: nat, name: string, id: JobId, found: ClusterView)
    requires request !in s.requests && name !in s.activeJobs && !found.status.NotFound? && !found.inUse
    ensures var job := FoundJob(name, found);
            RequestSteps(s, request, task, name, id, found)
            == s.(jobs := s.jobs[id := job.(status := DeleteSubmitted, runners := 1)], workQueue := s.workQueue + [id],
                  deletions := s.deletions[task := id])
  {
    var r := s.requests[request := SecondLook(name)][request := Marking(id, Found)][request := Queueing(id, Found)];
    assert r == s.requests[request := Queueing(id, Found)];
    RequestGone(s.requests, request, Queueing(id, Found));
    var job := FoundJob(name, found);
    assert s.jobs[id := job][id := job.(status := DeleteSubmitted)][id := job.(status := DeleteSubmitted, runners := 1)]
        == s.jobs[id := job.(status := DeleteSubmitted, runners := 1)];
  }
}
