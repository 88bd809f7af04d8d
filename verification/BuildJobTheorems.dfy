/** What every job keeps, over all runs. */
module BuildJobTheorems {
  import opened Prelude
  import opened BuildJobs

  // ---------------------------------------------------------------- places

  /** A step of the monitor within a pass. */
  lemma PlacesSurvivePass(s: State, a: Action)
    requires PlacesOk(s) && (a.Check? || a.Fetch? || a.Recheck? || a.WriteStatus? || a.Close? || a.Interrupt?)
    ensures PlacesOk(Step(s, a))
  {
    match a
    case Check(_) =>
    case Recheck(_, _, _) =>
    case _ =>
  }

  lemma PlacesSurviveTurn(s: State, a: Action)
    requires PlacesOk(s) && (a.BeginPass? || a.Leave?)
    ensures PlacesOk(Step(s, a))
  {
    if s.workQueue != [] { assert s.workQueue[0] in s.workQueue; }
  }

  lemma PlacesSurviveRequest(s: State, a: Action)
    requires PlacesOk(s) && Enabled(s, a) && (a.RequestDelete? || a.LookAgain? || a.MarkDeleted? || a.QueueRunner?)
    ensures PlacesOk(Step(s, a))
  {}

  lemma PlacesSurviveOthers(s: State, a: Action)
    requires PlacesOk(s) && Enabled(s, a) && (a.Publish? || a.NameBuild? || a.Configured? || a.DeletionFails? || a.DeletionEnds?)
    ensures PlacesOk(Step(s, a))
  {}

  lemma PlacesSurvive(s: State, a: Action)
    requires PlacesOk(s) && Enabled(s, a)
    ensures PlacesOk(Step(s, a))
  {
    match a
    case BeginPass => PlacesSurviveTurn(s, a);
    case Leave => PlacesSurviveTurn(s, a);
    case RequestDelete(_, _, _) => PlacesSurviveRequest(s, a);
    case LookAgain(_, _, _, _) => PlacesSurviveRequest(s, a);
    case MarkDeleted(_) => PlacesSurviveRequest(s, a);
    case QueueRunner(_) => PlacesSurviveRequest(s, a);
    case Publish(_, _) => PlacesSurviveOthers(s, a);
    case NameBuild(_, _) => PlacesSurviveOthers(s, a);
    case Configured(_, _) => PlacesSurviveOthers(s, a);
    case DeletionFails(_) => PlacesSurviveOthers(s, a);
    case DeletionEnds(_) => PlacesSurviveOthers(s, a);
    case _ => PlacesSurvivePass(s, a);
  }

  // ---------------------------------------------------------------- runners

  lemma RunnersAfterBegin(s: State, id: JobId)
    requires PlacesOk(s)
    ensures Live(BegunPass(s), id) == Live(s, id)
  {
    if s.workQueue != [] { assert s.workQueue == [s.workQueue[0]] + s.workQueue[1..]; }
  }

  lemma RunnersAfterClose(s: State, id: JobId)
    requires PlacesOk(s)
    ensures Live(Closed(s), id) + (if s.monitor == Closing(id, false) then 1 else 0) == Live(s, id)
  {}

  lemma RunnersSurvivePublish(s: State, id: JobId, name: string)
    requires PlacesOk(s) && RunnersOk(s) && id !in s.jobs
    ensures RunnersOk(Published(s, id, name))
  {
    assert id !in s.workQueue;
  }

  lemma RunnersSurviveFound(s: State, a: Action)
    requires PlacesOk(s) && RunnersOk(s) && Enabled(s, a) && a.LookAgain?
    ensures RunnersOk(Step(s, a))
  {
    assert a.id !in s.workQueue;
  }

  lemma RunnersSurviveBegin(s: State)
    requires PlacesOk(s) && RunnersOk(s)
    ensures RunnersOk(BegunPass(s))
  {
    forall id | id in s.jobs ensures Live(BegunPass(s), id) == Live(s, id) { RunnersAfterBegin(s, id); }
  }

  lemma RunnersSurviveClose(s: State)
    requires PlacesOk(s) && RunnersOk(s)
    ensures RunnersOk(Closed(s))
  {
    forall id | id in s.jobs
      ensures Live(Closed(s), id) + (if s.monitor == Closing(id, false) then 1 else 0) == Live(s, id) { RunnersAfterClose(s, id); }
  }

  lemma RunnersSurvivePlace(s: State, a: Action)
    requires RunnersOk(s) && (a.Leave? || a.Interrupt?)
    ensures RunnersOk(Step(s, a))
  {
    forall id | id in s.jobs ensures Live(Step(s, a), id) == Live(s, id) {}
  }

  lemma RunnersSurviveQueueing(s: State, request: nat)
    requires RunnersOk(s)
    ensures RunnersOk(QueuedRunner(s, request))
  {}

  lemma RunnersSurvivePass(s: State, a: Action)
    requires PlacesOk(s) && RunnersOk(s) && (a.Check? || a.Fetch? || a.Recheck? || a.WriteStatus?)
    ensures RunnersOk(Step(s, a))
  {
    var s' := Step(s, a);
    forall id | id in s.jobs ensures Live(s', id) == Live(s, id) && s'.jobs[id].runners == s.jobs[id].runners {}
  }

  /** Steps that touch neither the queue nor the monitor, nor the counts of runners. */
  lemma RunnersStay(s: State, s': State)
    requires RunnersOk(s) && s'.workQueue == s.workQueue && s'.monitor == s.monitor && s'.jobs.Keys == s.jobs.Keys
    requires forall id | id in s.jobs :: s'.jobs[id].runners == s.jobs[id].runners && s'.jobs[id].retired == s.jobs[id].retired
    ensures RunnersOk(s')
  {
    forall id | id in s'.jobs ensures Live(s', id) == Live(s, id) {}
  }

  lemma RunnersSurviveOthers(s: State, a: Action)
    requires RunnersOk(s)
    requires a.NameBuild? || a.Configured? || a.DeletionFails? || a.DeletionEnds? || a.RequestDelete? || a.MarkDeleted?
    ensures RunnersOk(Step(s, a))
  {
    RunnersStay(s, Step(s, a));
  }

  lemma RunnersSurvive(s: State, a: Action)
    requires PlacesOk(s) && RunnersOk(s) && Enabled(s, a)
    ensures RunnersOk(Step(s, a))
  {
    match a
    case Publish(id, name) => RunnersSurvivePublish(s, id, name);
    case LookAgain(_, _, _, _) => RunnersSurviveFound(s, a);
    case BeginPass => RunnersSurviveBegin(s);
    case Close => RunnersSurviveClose(s);
    case Leave => RunnersSurvivePlace(s, a);
    case Interrupt => RunnersSurvivePlace(s, a);
    case QueueRunner(request) => RunnersSurviveQueueing(s, request);
    case Check(_) => RunnersSurvivePass(s, a);
    case Fetch(_) => RunnersSurvivePass(s, a);
    case Recheck(_, _, _) => RunnersSurvivePass(s, a);
    case WriteStatus => RunnersSurvivePass(s, a);
    case _ => RunnersSurviveOthers(s, a);
  }

  // ---------------------------------------------------------------- requests

  /** A request that takes an active job finds a runner of it. */
  lemma ActiveJobsHaveRunners(s: State, name: string)
    requires PlacesOk(s) && JobsOk(s) && name in s.activeJobs
    ensures s.activeJobs[name] in s.jobs && s.jobs[s.activeJobs[name]].runners > 0
  {
    assert JobOk(s.jobs[s.monitor.job], s.monitor.job in s.configuring, PlaceOf(s, s.monitor.job));
  }

  lemma RequestsSurviveLook(s: State, request: nat, task: nat, name: string)
    requires Inv(s) && request !in s.requests
    ensures RequestsOk(DeleteRequested(s, request, task, name))
  {
    if name in s.activeJobs { ActiveJobsHaveRunners(s, name); }
  }

  lemma RequestsSurviveSecondLook(s: State, request: nat, task: nat, id: JobId, found: ClusterView)
    requires Inv(s) && id !in s.jobs
    ensures RequestsOk(LookedAgain(s, request, task, id, found))
  {
    if request in s.requests && s.requests[request].SecondLook? && s.requests[request].name in s.activeJobs {
      ActiveJobsHaveRunners(s, s.requests[request].name);
    }
    forall q | q in s.requests && !s.requests[q].SecondLook? ensures s.requests[q].job != id {
      assert RequestOk(s, s.requests[q]);
    }
  }

  lemma RequestsSurviveMark(s: State, request: nat)
    requires RequestsOk(s)
    ensures RequestsOk(Marked(s, request))
  {}

  lemma RequestsSurviveQueueing(s: State, request: nat)
    requires RequestsOk(s)
    ensures RequestsOk(QueuedRunner(s, request))
  {}

  /** A job that no runner has ever been started for is written by deletions and marks only. */
  lemma RequestsSurviveWrite(s: State)
    requires PlacesOk(s) && RequestsOk(s) && JobsOk(s)
    ensures RequestsOk(WroteStatus(s))
  {}

  lemma RequestsSurviveClose(s: State)
    requires RequestsOk(s)
    ensures RequestsOk(Closed(s))
  {}

  lemma RequestsSurviveConfiguration(s: State, a: Action)
    requires RequestsOk(s) && JobsOk(s) && (a.NameBuild? || a.Configured?)
    ensures RequestsOk(Step(s, a))
  {}

  lemma RequestsSurviveRecheck(s: State, a: Action)
    requires RequestsOk(s) && a.Recheck?
    ensures RequestsOk(Step(s, a))
  {}

  lemma RequestsSurviveDeletion(s: State, a: Action)
    requires RequestsOk(s) && (a.DeletionFails? || a.DeletionEnds?)
    ensures RequestsOk(Step(s, a))
  {}

  lemma RequestsSurvive(s: State, a: Action)
    requires Inv(s) && Enabled(s, a)
    ensures RequestsOk(Step(s, a))
  {
    match a
    case RequestDelete(request, task, name) => RequestsSurviveLook(s, request, task, name);
    case LookAgain(request, task, id, found) => RequestsSurviveSecondLook(s, request, task, id, found);
    case MarkDeleted(request) => RequestsSurviveMark(s, request);
    case QueueRunner(request) => RequestsSurviveQueueing(s, request);
    case WriteStatus => RequestsSurviveWrite(s);
    case Close => RequestsSurviveClose(s);
    case Recheck(_, _, _) => RequestsSurviveRecheck(s, a);
    case NameBuild(_, _) => RequestsSurviveConfiguration(s, a);
    case Configured(_, _) => RequestsSurviveConfiguration(s, a);
    case DeletionFails(_) => RequestsSurviveDeletion(s, a);
    case DeletionEnds(_) => RequestsSurviveDeletion(s, a);
    case _ =>
  }

  // ---------------------------------------------------------------- the life of a job

  lemma CheckedJobIsOk(job: Job, configuring: bool, id: JobId, at: nat)
    requires JobOk(job, configuring, Checking(id, at)) && at < CHECKS
    ensures JobOk(job, configuring, AfterCheck(id, at, job.status))
  {}

  lemma FetchedJobIsOk(job: Job, configuring: bool, id: JobId, answer: Answer)
    requires JobOk(job, configuring, Fetching(id))
    ensures JobOk(job, configuring, AfterFetch(id, job.buildName, answer))
  {}

  lemma RecheckedJobIsOk(job: Job, configuring: bool, id: JobId, secretThrows: bool, launchThrows: bool, rollout: Rollout)
    requires JobOk(job, configuring, Rechecking(id))
    ensures var (done, place) := AfterRecheck(job, id, secretThrows, launchThrows, rollout);
            JobOk(done, configuring, place)
  {}

  lemma WrittenJobIsOk(job: Job, configuring: bool, id: JobId, e: Effect)
    requires JobOk(job, configuring, Writing(id, e))
    ensures JobOk(Written(job, e), configuring || e.configure, Closing(id, e.again))
  {}

  lemma ClosedJobIsOk(job: Job, configuring: bool, id: JobId, again: bool)
    requires JobOk(job, configuring, Closing(id, again))
    ensures JobOk(if again then job else job.(retired := job.retired + 1), configuring, Leaving(id))
  {}

  /** A job may be marked as being deleted at any time. */
  lemma DeletingJobIsOk(job: Job, configuring: bool, place: Place, status: Status)
    requires JobOk(job, configuring, place) && Deleting(status)
    ensures JobOk(job.(status := status), configuring, place)
  {}

  lemma ConfiguredJobIsOk(job: Job, place: Place, succeeds: bool)
    requires JobOk(job, true, place) && (succeeds ==> job.buildName.Some?)
    ensures JobOk(job.(status := if succeeds then Building else Failed), false, place)
  {}

  lemma NamedJobIsOk(job: Job, place: Place, build: string)
    requires JobOk(job, true, place)
    ensures JobOk(job.(buildName := Some(build)), true, place)
  {}

  /** A step that changes job `id` only, and moves the monitor only if it works on that job. */
  lemma OneJobChanges(s: State, s': State, id: JobId)
    requires JobsOk(s) && id in s.jobs && id in s'.jobs && s'.jobs == s.jobs[id := s'.jobs[id]]
    requires (Busy(s.monitor, id) && (Busy(s'.monitor, id) || s'.monitor.Idle?)) || s'.monitor == s.monitor
    requires forall other | other != id :: other in s'.configuring <==> other in s.configuring
    requires id in s'.configuring ==> id in s'.jobs
    requires forall t | t in s'.deletions :: s'.deletions[t] in s'.jobs
    requires JobOk(s'.jobs[id], id in s'.configuring, PlaceOf(s', id))
    ensures JobsOk(s')
  {}

  lemma JobsSurviveCheck(s: State, task: nat)
    requires Inv(s)
    ensures JobsOk(Checked(s, task))
  {
    if s.monitor.Checking? {
      var id := s.monitor.job;
      CheckedJobIsOk(s.jobs[id], id in s.configuring, id, s.monitor.at);
      OneJobChanges(s, Checked(s, task), id);
    }
  }

  lemma JobsSurviveFetch(s: State, answer: Answer)
    requires Inv(s)
    ensures JobsOk(FetchedBuild(s, answer))
  {
    if s.monitor.Fetching? {
      var id := s.monitor.job;
      FetchedJobIsOk(s.jobs[id], id in s.configuring, id, answer);
      OneJobChanges(s, FetchedBuild(s, answer), id);
    }
  }

  lemma JobsSurviveRecheck(s: State, secretThrows: bool, launchThrows: bool, rollout: Rollout)
    requires Inv(s)
    ensures JobsOk(Rechecked(s, secretThrows, launchThrows, rollout))
  {
    if s.monitor.Rechecking? {
      var id := s.monitor.job;
      RecheckedJobIsOk(s.jobs[id], id in s.configuring, id, secretThrows, launchThrows, rollout);
      OneJobChanges(s, Rechecked(s, secretThrows, launchThrows, rollout), id);
    }
  }

  lemma JobsSurviveWrite(s: State)
    requires Inv(s)
    ensures JobsOk(WroteStatus(s))
  {
    if s.monitor.Writing? {
      var id := s.monitor.job;
      WrittenJobIsOk(s.jobs[id], id in s.configuring, id, s.monitor.effect);
      OneJobChanges(s, WroteStatus(s), id);
    }
  }

  lemma JobsSurviveClose(s: State)
    requires Inv(s)
    ensures JobsOk(Closed(s))
  {
    if s.monitor.Closing? {
      var id := s.monitor.job;
      ClosedJobIsOk(s.jobs[id], id in s.configuring, id, s.monitor.again);
      OneJobChanges(s, Closed(s), id);
    }
  }

  lemma JobsSurviveBegin(s: State)
    requires Inv(s)
    ensures JobsOk(BegunPass(s))
  {
    if s.workQueue != [] { assert s.workQueue[0] in s.workQueue && Live(s, s.workQueue[0]) > 0; }
  }

  lemma JobsSurvivePlace(s: State, a: Action)
    requires Inv(s) && (a.Interrupt? || a.Leave?)
    ensures JobsOk(Step(s, a))
  {}

  lemma JobsSurvivePublish(s: State, id: JobId, name: string)
    requires Inv(s) && id !in s.jobs
    ensures JobsOk(Published(s, id, name))
  {
    JobJoins(s, Published(s, id, name), id);
  }

  lemma JobsSurviveLook(s: State, request: nat, task: nat, name: string)
    requires Inv(s)
    ensures JobsOk(DeleteRequested(s, request, task, name))
  {
    JobsStay(s, DeleteRequested(s, request, task, name));
  }

  lemma JobsStay(s: State, s': State)
    requires JobsOk(s) && s'.jobs == s.jobs && s'.monitor == s.monitor && s'.configuring == s.configuring
    requires forall t | t in s'.deletions :: s'.deletions[t] in s'.jobs
    ensures JobsOk(s')
  {}

  lemma JobsSurviveSecondLook(s: State, request: nat, task: nat, id: JobId, found: ClusterView)
    requires PlacesOk(s) && JobsOk(s) && id !in s.jobs
    ensures JobsOk(LookedAgain(s, request, task, id, found))
  {
    var s' := LookedAgain(s, request, task, id, found);
    if id in s'.jobs {
      FoundJobIsOk(s.requests[request].name, found);
      JobJoins(s, s', id);
    } else {
      JobsStay(s, s');
    }
  }

  lemma FoundJobIsOk(name: string, found: ClusterView)
    ensures JobOk(FoundJob(name, found), false, Idle)
  {}

  /** A new job joins the others. */
  lemma JobJoins(s: State, s': State, id: JobId)
    requires PlacesOk(s) && JobsOk(s) && id !in s.jobs && s'.monitor == s.monitor && s'.configuring == s.configuring
    requires s' == s || (id in s'.jobs && s'.jobs == s.jobs[id := s'.jobs[id]] && JobOk(s'.jobs[id], false, Idle))
    requires forall t | t in s'.deletions :: s'.deletions[t] in s'.jobs
    ensures JobsOk(s')
  {}

  lemma JobsSurviveMark(s: State, request: nat)
    requires Inv(s)
    ensures JobsOk(Marked(s, request))
  {
    if Marked(s, request) != s {
      var id := s.requests[request].job;
      DeletingJobIsOk(s.jobs[id], id in s.configuring, PlaceOf(s, id), DeleteSubmitted);
      OneJobChanges(s, Marked(s, request), id);
    }
  }

  lemma JobsSurviveQueueing(s: State, request: nat)
    requires Inv(s)
    ensures JobsOk(QueuedRunner(s, request))
  {
    if QueuedRunner(s, request) != s {
      assert RequestOk(s, s.requests[request]);
      OneJobChanges(s, QueuedRunner(s, request), s.requests[request].job);
    }
  }

  lemma JobsSurviveDeletion(s: State, a: Action)
    requires Inv(s) && (a.DeletionFails? || a.DeletionEnds?)
    ensures JobsOk(Step(s, a))
  {
    if a.task in s.deletions {
      var id := s.deletions[a.task];
      DeletingJobIsOk(s.jobs[id], id in s.configuring, PlaceOf(s, id), if a.DeletionFails? then DeleteRequeue else DeleteDone);
      OneJobChanges(s, Step(s, a), id);
    }
  }

  lemma JobsSurviveConfiguration(s: State, a: Action)
    requires Inv(s) && Enabled(s, a) && (a.NameBuild? || a.Configured?)
    ensures JobsOk(Step(s, a))
  {
    if a.id in s.configuring {
      if a.NameBuild? {
        NamedJobIsOk(s.jobs[a.id], PlaceOf(s, a.id), a.build);
      } else {
        ConfiguredJobIsOk(s.jobs[a.id], PlaceOf(s, a.id), a.succeeds);
      }
      OneJobChanges(s, Step(s, a), a.id);
    }
  }

  lemma JobsSurvive(s: State, a: Action)
    requires Inv(s) && Enabled(s, a)
    ensures JobsOk(Step(s, a))
  {
    match a
    case Publish(id, name) => JobsSurvivePublish(s, id, name);
    case RequestDelete(request, task, name) => JobsSurviveLook(s, request, task, name);
    case LookAgain(request, task, id, found) => JobsSurviveSecondLook(s, request, task, id, found);
    case BeginPass => JobsSurviveBegin(s);
    case Interrupt => JobsSurvivePlace(s, a);
    case Leave => JobsSurvivePlace(s, a);
    case NameBuild(_, _) => JobsSurviveConfiguration(s, a);
    case Configured(_, _) => JobsSurviveConfiguration(s, a);
    case MarkDeleted(request) => JobsSurviveMark(s, request);
    case QueueRunner(request) => JobsSurviveQueueing(s, request);
    case DeletionFails(_) => JobsSurviveDeletion(s, a);
    case DeletionEnds(_) => JobsSurviveDeletion(s, a);
    case Check(task) => JobsSurviveCheck(s, task);
    case Fetch(answer) => JobsSurviveFetch(s, answer);
    case Recheck(secretThrows, launchThrows, rollout) => JobsSurviveRecheck(s, secretThrows, launchThrows, rollout);
    case WriteStatus => JobsSurviveWrite(s);
    case Close => JobsSurviveClose(s);
  }

  lemma InvStep(s: State, a: Action)
    requires Inv(s) && Enabled(s, a)
    ensures Inv(Step(s, a))
  {
    PlacesSurvive(s, a);
    RunnersSurvive(s, a);
    RequestsSurvive(s, a);
    JobsSurvive(s, a);
  }

  lemma {:induction false} InvFrom(s: State, more: seq<Action>)
    requires Inv(s) && IsRun(s, more)
    ensures Inv(Run(s, more))
  {
    if more != [] {
      var n := |more| - 1;
      InvFrom(s, more[..n]);
      InvStep(Run(s, more[..n]), more[n]);
    }
  }

  lemma InvOverRuns(actions: seq<Action>)
    requires IsRun(Init(), actions)
    ensures Inv(Run(Init(), actions))
  {
    InvFrom(Init(), actions);
  }

  // ---------------------------------------------------------------- what it means for a job

  /** In every reachable state, of a job: each runner it was ever given is queued, at work or retired; it is configured
      at most once; services come after a deployment config and at most once per runner; and while a runner of it
      sees it building or deploying, the name of its build is known. */
  lemma EveryJob(actions: seq<Action>, id: JobId)
    requires IsRun(Init(), actions) && id in Run(Init(), actions).jobs
    ensures var s := Run(Init(), actions);
            var job := s.jobs[id];
            && Live(s, id) + job.retired == job.runners
            && job.configurations <= 1
            && job.services <= job.runners && (job.services > 0 ==> job.deployments > 0)
            && (Live(s, id) > 0 && (job.status.Building? || job.status.Deploying?) ==> job.buildName.Some?)
  {
    InvOverRuns(actions);
    var s := Run(Init(), actions);
    assert JobOk(s.jobs[id], id in s.configuring, PlaceOf(s, id));
  }
}
