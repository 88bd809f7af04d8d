/** What single requests and single passes make of a job, told by what the cluster answers. */
module BuildJobLife {
  import opened Prelude
  import opened BuildJobs
  import opened BuildMonitors

  /** A publish request changes nothing while the active job of that name is building.  Otherwise it adds one
      submitted job, with one runner at the end of the queue, and leaves all other jobs alone. */
  lemma PublishOutcome(s: State, id: JobId, name: string)
    requires Inv(s) && id !in s.jobs
    ensures var s' := Step(s, Publish(id, name));
            if name in s.activeJobs && s.jobs[s.activeJobs[name]].status == Building then s' == s
            else
              && s'.jobs.Keys == s.jobs.Keys + {id} && (forall i | i in s.jobs :: s'.jobs[i] == s.jobs[i])
              && s'.jobs[id] == Job(name, false, Submitted, None, 0, 0, 0, 1, 0)
              && s'.workQueue == s.workQueue + [id]
              && s'.monitor == s.monitor && s'.activeJobs == s.activeJobs && s'.configuring == s.configuring
              && s'.deletions == s.deletions && s'.requests == s.requests
  {}

  /** A deletion request that nobody disturbs submits the deletion of the active job of that name and marks it.
      Without one, it makes a job of what the cluster knows, with a runner at the end of the queue and with the
      name of the build that the deletion is to remove, unless the cluster knows nothing or integrations use the
      virtualization. */
  lemma DeletionRequest(s: State, request: nat, task: nat, name: string, id: JobId, found: ClusterView)
    requires Inv(s) && request !in s.requests && id !in s.jobs
    ensures var s' := RequestSteps(s, request, task, name, id, found);
            if name in s.activeJobs then
              var job := s.activeJobs[name];
              s' == s.(jobs := s.jobs[job := s.jobs[job].(status := DeleteSubmitted)], deletions := s.deletions[task := job])
            else if found.status.NotFound? || found.inUse then s' == s
            else
              s' == s.(jobs := s.jobs[id := Job(name, true, DeleteSubmitted, found.buildName, 0, 0, 0, 1, 0)],
                       workQueue := s.workQueue + [id], deletions := s.deletions[task := id])
  {
    if name in s.activeJobs {
      TakenOver(s, request, task, name, id, found);
    } else if found.status.NotFound? || found.inUse {
      NothingRequested(s, request, task, name, id, found);
    } else {
      FoundAndQueued(s, request, task, name, id, found);
    }
  }

  // ---------------------------------------------------------------- one pass

  /** The pass gets as far as asking the cluster for the build. */
  predicate Asks(job: Job, cluster: Cluster) {
    && !cluster.interrupted && job.buildName.Some?
    && (job.status.NotFound? || job.status.Building? || job.status.Deploying? || job.status.Running?)
  }

  /** A complete build is deployed now. */
  predicate DeploysNow(job: Job, cluster: Cluster) {
    Asks(job, cluster) && cluster.answer.Complete? && !job.status.Deploying? && !job.fetched && !cluster.secretThrows
  }

  /** The cluster is asked how the deployment goes. */
  predicate Follows(job: Job, cluster: Cluster) { Asks(job, cluster) && cluster.answer.Complete? && job.status.Deploying? }

  predicate IsReady(job: Job, cluster: Cluster) {
    Follows(job, cluster) && cluster.rollout.Ready? && !cluster.rollout.servicesThrow
  }

  /** The status that a pass leaves. */
  function StatusAfter(job: Job, cluster: Cluster): Status {
    if cluster.interrupted then job.status
    else if job.status == DeleteRequeue then DeleteSubmitted
    else if job.status == Submitted then Configuring
    else if Asks(job, cluster) && cluster.answer == BuildCancelled then Cancelled
    else if Asks(job, cluster) && cluster.answer == BuildFailed then Failed
    else if DeploysNow(job, cluster) then Deploying
    else if IsReady(job, cluster) && !cluster.rollout.connectionThrows then Running
    else if Follows(job, cluster) && cluster.rollout == Stuck then Failed
    else job.status
  }

  /** The runner goes on: its job waits for a deletion or a configuration, for its build or its deployment, or has
      just been given something to do. */
  predicate GoesOn(job: Job, cluster: Cluster) {
    && !cluster.interrupted
    && (|| job.status.DeleteSubmitted? || job.status.DeleteRequeue? || job.status.Submitted? || job.status.Configuring?
        || (Asks(job, cluster) && cluster.answer.InProgress?)
        || (DeploysNow(job, cluster) && !cluster.launchThrows)
        || (Follows(job, cluster) && cluster.rollout.Progressing?))
  }

  lemma JudgedStatus(job: Job, cluster: Cluster)
    ensures Judge(job, cluster).job.status == StatusAfter(job, cluster)
    ensures Judge(job, cluster).again <==> GoesOn(job, cluster)
  {}

  lemma JudgedCounts(job: Job, cluster: Cluster)
    ensures var after := Judge(job, cluster).job;
            && after.configurations == job.configurations + (if !cluster.interrupted && job.status.Submitted? then 1 else 0)
            && after.deployments == job.deployments + (if DeploysNow(job, cluster) then 1 else 0)
            && after.services == job.services + (if IsReady(job, cluster) then 1 else 0)
            && after.retired == job.retired && after.buildName == job.buildName && after.runners == job.runners
  {}

  /** A pass that nobody disturbs: the first job of the queue gets its next status, with what is made along the
      way, and its runner goes to the end of the queue or retires. */
  lemma OnePass(s: State, cluster: Cluster, task: nat)
    requires s.monitor.Idle? && s.workQueue != [] && s.workQueue[0] in s.jobs
    ensures var id := s.workQueue[0];
            var job, s' := s.jobs[id], Steps(s, cluster, task);
            && id in s'.jobs && s'.jobs[id].status == StatusAfter(job, cluster)
            && s'.jobs[id].configurations == job.configurations + (if !cluster.interrupted && job.status.Submitted? then 1 else 0)
            && s'.jobs[id].deployments == job.deployments + (if DeploysNow(job, cluster) then 1 else 0)
            && s'.jobs[id].services == job.services + (if IsReady(job, cluster) then 1 else 0)
            && s'.jobs[id].retired == job.retired + (if GoesOn(job, cluster) then 0 else 1)
            && s'.jobs[id].buildName == job.buildName && s'.jobs[id].runners == job.runners
  {
    PassIsItsSteps(s, cluster, task);
    JudgedStatus(s.jobs[s.workQueue[0]], cluster);
    JudgedCounts(s.jobs[s.workQueue[0]], cluster);
  }

  lemma JudgedStarts(job: Job, cluster: Cluster)
    ensures Judge(job, cluster).configure <==> !cluster.interrupted && job.status.Submitted?
    ensures Judge(job, cluster).resubmit <==> !cluster.interrupted && job.status.DeleteRequeue?
  {}

  lemma OtherNames(active: map<string, JobId>, name: string, id: JobId)
    ensures (active[name := id] - {name}).Keys == active.Keys - {name}
  {}

  /** And around the job: only a submitted job starts a configuration, only a deletion set aside is submitted again,
      nothing is active afterwards under its name, and all other jobs stay. */
  lemma AroundOnePass(s: State, cluster: Cluster, task: nat)
    requires s.monitor.Idle? && s.workQueue != [] && s.workQueue[0] in s.jobs
    ensures var id := s.workQueue[0];
            var job, s' := s.jobs[id], Steps(s, cluster, task);
            && s'.workQueue == (if GoesOn(job, cluster) then s.workQueue[1..] + [id] else s.workQueue[1..])
            && s'.configuring == (if !cluster.interrupted && job.status.Submitted? then s.configuring + {id} else s.configuring)
            && s'.deletions == (if !cluster.interrupted && job.status.DeleteRequeue? then s.deletions[task := id] else s.deletions)
            && s'.activeJobs.Keys == s.activeJobs.Keys - {job.openShiftName}
            && s'.jobs.Keys == s.jobs.Keys && (forall i | i in s.jobs && i != id :: s'.jobs[i] == s.jobs[i])
  {
    var id := s.workQueue[0];
    PassIsItsSteps(s, cluster, task);
    JudgedStatus(s.jobs[id], cluster);
    JudgedStarts(s.jobs[id], cluster);
    OtherNames(s.activeJobs, s.jobs[id].openShiftName, id);
    LeftBehind(s, PassedOver(s, cluster, task), id, Judge(s.jobs[id], cluster), task);
  }

  lemma LeftBehind(s: State, s': State, id: JobId, v: Verdict, task: nat)
    requires s.workQueue != [] && s.workQueue[0] == id && id in s.jobs
    requires s'.jobs == s.jobs[id := Ended(v.job, v.again)] && s'.workQueue == s.workQueue[1..] + if v.again then [id] else []
    ensures s'.workQueue == (if v.again then s.workQueue[1..] + [id] else s.workQueue[1..])
    ensures s'.jobs.Keys == s.jobs.Keys && (forall i | i in s.jobs && i != id :: s'.jobs[i] == s.jobs[i])
  {}

  // ---------------------------------------------------------------- from publishing to running

  const Waits := Cluster(false, InProgress, false, false, Progressing)
  const Built := Cluster(false, Complete, false, false, Progressing)
  const Serves := Cluster(false, Complete, false, false, Ready(false, false))

  /** The job is alone in the queue, and nothing else goes on. */
  predicate Alone(s: State, id: JobId, job: Job) {
    s.monitor.Idle? && s.workQueue == [id] && id in s.jobs && s.jobs[id] == job
  }

  lemma PassAlone(s: State, id: JobId, job: Job, cluster: Cluster, task: nat)
    requires Alone(s, id, job)
    ensures var s', v := Steps(s, cluster, task), Judge(job, cluster);
            && s'.monitor.Idle? && id in s'.jobs && s'.jobs[id] == Ended(v.job, v.again)
            && s'.workQueue == (if v.again then [id] else [])
            && (v.configure ==> id in s'.configuring)
  {
    PassIsItsSteps(s, cluster, task);
  }

  lemma ConfigurationSucceeds(s: State, id: JobId, job: Job, build: string)
    requires Alone(s, id, job) && id in s.configuring
    ensures Alone(Step(Step(s, NameBuild(id, build)), Configured(id, true)), id, job.(status := Building, buildName := Some(build)))
  {}

  lemma PublishedJobIsBuilt(s: State, id: JobId, name: string, build: string, task: nat)
    requires Inv(s) && s.monitor.Idle? && s.workQueue == [] && id !in s.jobs
    ensures var submitted := Step(s, Publish(id, name));
            var configuring := Steps(submitted, Waits, task);
            && Alone(submitted, id, Job(name, false, Submitted, None, 0, 0, 0, 1, 0))
            && Alone(configuring, id, Job(name, false, Configuring, None, 1, 0, 0, 1, 0))
            && Alone(Step(Step(configuring, NameBuild(id, build)), Configured(id, true)), id,
                     Job(name, false, Building, Some(build), 1, 0, 0, 1, 0))
  {
    var submitted := Step(s, Publish(id, name));
    var job := Job(name, false, Submitted, None, 0, 0, 0, 1, 0);
    PassAlone(submitted, id, job, Waits, task);
    ConfigurationSucceeds(Steps(submitted, Waits, task), id, job.(status := Configuring, configurations := 1), build);
  }

  lemma BuiltJobRuns(s: State, id: JobId, name: string, build: string, task: nat)
    requires Alone(s, id, Job(name, false, Building, Some(build), 1, 0, 0, 1, 0))
    ensures var waiting := Steps(s, Waits, task);
            var deploying := Steps(waiting, Built, task);
            var running := Steps(deploying, Serves, task);
            && Alone(waiting, id, s.jobs[id])
            && Alone(deploying, id, Job(name, false, Deploying, Some(build), 1, 1, 0, 1, 0))
            && running.workQueue == [] && id in running.jobs && running.jobs[id] == Job(name, false, Running, Some(build), 1, 1, 1, 1, 1)
  {
    var job := Job(name, false, Building, Some(build), 1, 0, 0, 1, 0);
    PassAlone(s, id, job, Waits, task);
    var waiting := Steps(s, Waits, task);
    PassAlone(waiting, id, job, Built, task);
    PassAlone(Steps(waiting, Built, task), id, job.(status := Deploying, deployments := 1), Serves, task);
  }

  /** A published job whose build and deployment succeed is configured, built, deployed once and running, with one
      service and no runner left: four passes, around the configuration that names its build. */
  lemma PublishedJobRuns(s: State, id: JobId, name: string, build: string, task: nat)
    requires Inv(s) && s.monitor.Idle? && s.workQueue == [] && id !in s.jobs
    ensures var configuring := Steps(Step(s, Publish(id, name)), Waits, task);
            var built := Step(Step(configuring, NameBuild(id, build)), Configured(id, true));
            var running := Steps(Steps(Steps(built, Waits, task), Built, task), Serves, task);
            running.workQueue == [] && id in running.jobs && running.jobs[id] == Job(name, false, Running, Some(build), 1, 1, 1, 1, 1)
  {
    PublishedJobIsBuilt(s, id, name, build, task);
    BuiltJobRuns(Step(Step(Steps(Step(s, Publish(id, name)), Waits, task), NameBuild(id, build)), Configured(id, true)), id, name, build, task);
  }
}
