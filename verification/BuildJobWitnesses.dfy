/** Runs in which a requested deletion is lost, and in which a job gets a second runner or a second deployment
    config. */
module BuildJobWitnesses {
  import opened Prelude
  import opened BuildJobs
  import opened BuildJobDeployments
  import opened BuildJobDeletions
  import opened BuildJobVerdicts

  /** A state with one job, number 0. */
  function At(job: Job, queue: seq<JobId>, place: Place, configuring: bool, deletions: map<nat, JobId>, requests: map<nat, Request>)
    : State
  {
    State(map[0 := job], queue, place, if place.Idle? then map[] else map[job.openShiftName := 0],
          if configuring then {0} else {}, deletions, requests)
  }

  /** A run that ends in a state. */
  ghost predicate Reaches(actions: seq<Action>, s: State) { IsRun(Init(), actions) && Run(Init(), actions) == s }

  lemma Then(before: seq<Action>, s: State, a: Action, s': State) returns (actions: seq<Action>)
    requires Reaches(before, s) && Enabled(s, a) && Step(s, a) == s'
    ensures Reaches(actions, s') && actions == before + [a]
  {
    actions := before + [a];
    assert actions[..|before|] == before;
  }

  // ---------------------------------------------------------------- steps of the monitor

  lemma Publishes(name: string) returns (actions: seq<Action>)
    ensures Reaches(actions, At(Job(name, false, Submitted, None, 0, 0, 0, 1, 0), [0], Idle, false, map[], map[]))
  {
    var job := Job(name, false, Submitted, None, 0, 0, 0, 1, 0);
    actions := Then([], Init(), Publish(0, name), At(job, [0], Idle, false, map[], map[]));
  }

  lemma Begins(before: seq<Action>, job: Job, rest: seq<JobId>, c: bool, d: map<nat, JobId>, r: map<nat, Request>)
    returns (actions: seq<Action>)
    requires Reaches(before, At(job, [0] + rest, Idle, c, d, r))
    ensures Reaches(actions, At(job, rest, Checking(0, 0), c, d, r))
  {
    assert ([0] + rest)[1..] == rest;
    actions := Then(before, At(job, [0] + rest, Idle, c, d, r), BeginPass, At(job, rest, Checking(0, 0), c, d, r));
  }

  function Tested(at: nat): Place { if at == CHECKS then Fetching(0) else Checking(0, at) }

  /** The next `k` tests do not stop the pass. */
  lemma {:induction false} Checks(before: seq<Action>, job: Job, q: seq<JobId>, c: bool, d: map<nat, JobId>, r: map<nat, Request>,
                                  task: nat, at: nat, k: nat)
    returns (actions: seq<Action>)
    requires at + k <= CHECKS && Passes(job.status, at + k) && task !in d
    requires Reaches(before, At(job, q, Tested(at), c, d, r))
    ensures Reaches(actions, At(job, q, Tested(at + k), c, d, r))
    decreases k
  {
    if k == 0 {
      actions := before;
    } else {
      TestPasses(job, q, c, d, r, task, at);
      actions := Then(before, At(job, q, Tested(at), c, d, r), Check(task), At(job, q, Tested(at + 1), c, d, r));
      actions := Checks(actions, job, q, c, d, r, task, at + 1, k - 1);
    }
  }

  lemma TestPasses(job: Job, q: seq<JobId>, c: bool, d: map<nat, JobId>, r: map<nat, Request>, task: nat, at: nat)
    requires at < CHECKS && Passes(job.status, at + 1)
    ensures Checked(At(job, q, Tested(at), c, d, r), task) == At(job, q, Tested(at + 1), c, d, r)
  {
    assert map[0 := job][0] == job;
  }

  /** A pass takes up a job whose status passes all tests, and asks for its build. */
  lemma Passing(before: seq<Action>, job: Job, rest: seq<JobId>, d: map<nat, JobId>, r: map<nat, Request>, task: nat)
    returns (actions: seq<Action>)
    requires Passes(job.status, CHECKS) && task !in d && Reaches(before, At(job, [0] + rest, Idle, false, d, r))
    ensures Reaches(actions, At(job, rest, Fetching(0), false, d, r))
  {
    actions := Begins(before, job, rest, false, d, r);
    actions := Checks(actions, job, rest, false, d, r, task, 0, CHECKS);
  }

  /** The build is complete. */
  lemma FindsBuild(before: seq<Action>, job: Job, q: seq<JobId>, d: map<nat, JobId>, r: map<nat, Request>) returns (actions: seq<Action>)
    requires job.buildName.Some? && Reaches(before, At(job, q, Fetching(0), false, d, r))
    ensures Reaches(actions, At(job, q, Rechecking(0), false, d, r))
  {
    actions := Then(before, At(job, q, Fetching(0), false, d, r), Fetch(Complete), At(job, q, Rechecking(0), false, d, r));
  }

  const DEPLOYS := Effect(Deploying, true, false)

  lemma StartsDeployment(before: seq<Action>, job: Job, q: seq<JobId>, c: bool, d: map<nat, JobId>, r: map<nat, Request>)
    returns (actions: seq<Action>)
    requires Reaches(before, At(job, q, Rechecking(0), c, d, r)) && Deploys(job, false)
    ensures Reaches(actions, At(job.(deployments := job.deployments + 1), q, Writing(0, DEPLOYS), c, d, r))
  {
    var deployed := job.(deployments := job.deployments + 1);
    var s' := At(deployed, q, Writing(0, DEPLOYS), c, d, r);
    assert map[0 := job][0 := deployed] == map[0 := deployed];
    actions := Then(before, At(job, q, Rechecking(0), c, d, r), Recheck(false, false, Progressing), s');
  }

  lemma Writes(before: seq<Action>, job: Job, q: seq<JobId>, e: Effect, c: bool, d: map<nat, JobId>, r: map<nat, Request>)
    returns (actions: seq<Action>)
    requires Reaches(before, At(job, q, Writing(0, e), c, d, r)) && (e.configure ==> !c)
    ensures Reaches(actions, At(Written(job, e), q, Closing(0, e.again), c || e.configure, d, r))
  {
    var s' := At(Written(job, e), q, Closing(0, e.again), c || e.configure, d, r);
    assert map[0 := job][0 := Written(job, e)] == map[0 := Written(job, e)];
    assert {0} + {0} == {0} && {} + {0} == {0};
    actions := Then(before, At(job, q, Writing(0, e), c, d, r), WriteStatus, s');
  }

  lemma Requeues(before: seq<Action>, job: Job, q: seq<JobId>, c: bool, d: map<nat, JobId>, r: map<nat, Request>)
    returns (actions: seq<Action>)
    requires Reaches(before, At(job, q, Closing(0, true), c, d, r))
    ensures Reaches(actions, At(job, q + [0], Idle, c, d, r))
  {
    actions := Then(before, At(job, q, Closing(0, true), c, d, r), Close, At(job, q + [0], Leaving(0), c, d, r));
    assert map[job.openShiftName := 0] - {job.openShiftName} == map[];
    actions := Then(actions, At(job, q + [0], Leaving(0), c, d, r), Leave, At(job, q + [0], Idle, c, d, r));
  }

  lemma Retires(before: seq<Action>, job: Job, q: seq<JobId>, c: bool, d: map<nat, JobId>, r: map<nat, Request>)
    returns (actions: seq<Action>)
    requires Reaches(before, At(job, q, Closing(0, false), c, d, r))
    ensures Reaches(actions, At(job.(retired := job.retired + 1), q, Idle, c, d, r))
  {
    var gone := job.(retired := job.retired + 1);
    assert map[0 := job][0 := gone] == map[0 := gone];
    actions := Then(before, At(job, q, Closing(0, false), c, d, r), Close, At(gone, q, Leaving(0), c, d, r));
    assert map[job.openShiftName := 0] - {job.openShiftName} == map[];
    actions := Then(actions, At(gone, q, Leaving(0), c, d, r), Leave, At(gone, q, Idle, c, d, r));
  }

  // ---------------------------------------------------------------- steps of other threads

  lemma Marks(before: seq<Action>, job: Job, q: seq<JobId>, p: Place, c: bool, d: map<nat, JobId>, kind: Kind) returns (actions: seq<Action>)
    requires Reaches(before, At(job, q, p, c, d, map[0 := Marking(0, kind)]))
    ensures Reaches(actions, At(job.(status := DeleteSubmitted), q, p, c, d, if kind.Took? then map[] else map[0 := Queueing(0, kind)]))
  {
    var marked := job.(status := DeleteSubmitted);
    var left: map<nat, Request> := if kind.Took? then map[] else map[0 := Queueing(0, kind)];
    var one: map<nat, Request> := map[0 := Marking(0, kind)];
    assert map[0 := job][0 := marked] == map[0 := marked];
    assert one - {0} == map[] && one[0 := Queueing(0, kind)] == map[0 := Queueing(0, kind)];
    actions := Then(before, At(job, q, p, c, d, one), MarkDeleted(0), At(marked, q, p, c, d, left));
  }

  lemma Queues(before: seq<Action>, job: Job, q: seq<JobId>, p: Place, c: bool, d: map<nat, JobId>, kind: Kind) returns (actions: seq<Action>)
    requires Reaches(before, At(job, q, p, c, d, map[0 := Queueing(0, kind)]))
    ensures Reaches(actions, At(job.(runners := job.runners + 1), q + [0], p, c, d, map[]))
  {
    var more := job.(runners := job.runners + 1);
    var one: map<nat, Request> := map[0 := Queueing(0, kind)];
    assert map[0 := job][0 := more] == map[0 := more] && one - {0} == map[];
    actions := Then(before, At(job, q, p, c, d, one), QueueRunner(0), At(more, q + [0], p, c, d, map[]));
  }

  lemma Ends(before: seq<Action>, job: Job, q: seq<JobId>, p: Place, c: bool, d: map<nat, JobId>, r: map<nat, Request>, task: nat)
    returns (actions: seq<Action>)
    requires Reaches(before, At(job, q, p, c, d, r)) && task in d && d[task] == 0
    ensures Reaches(actions, At(job.(status := DeleteDone), q, p, c, d - {task}, r))
  {
    var done := job.(status := DeleteDone);
    assert map[0 := job][0 := done] == map[0 := done];
    actions := Then(before, At(job, q, p, c, d, r), DeletionEnds(task), At(done, q, p, c, d - {task}, r));
  }

  /** A request takes the job that the monitor is working on. */
  lemma Takes(before: seq<Action>, job: Job, q: seq<JobId>, p: Place, c: bool) returns (actions: seq<Action>)
    requires Reaches(before, At(job, q, p, c, map[], map[])) && Busy(p, 0)
    ensures Reaches(actions, At(job, q, p, c, map[0 := 0], map[0 := Marking(0, Took)]))
  {
    actions := Then(before, At(job, q, p, c, map[], map[]), RequestDelete(0, 0, job.openShiftName),
                    At(job, q, p, c, map[0 := 0], map[0 := Marking(0, Took)]));
  }

  /** And marks it; its deletion then ends. */
  lemma DeletesActive(before: seq<Action>, job: Job, q: seq<JobId>, p: Place, c: bool) returns (actions: seq<Action>)
    requires Reaches(before, At(job, q, p, c, map[], map[])) && Busy(p, 0)
    ensures Reaches(actions, At(job.(status := DeleteDone), q, p, c, map[], map[]))
  {
    var one: map<nat, JobId> := map[0 := 0];
    actions := Takes(before, job, q, p, c);
    actions := Marks(actions, job, q, p, c, one, Took);
    actions := Ends(actions, job.(status := DeleteSubmitted), q, p, c, one, map[], 0);
    assert one - {0} == map[];
  }

  lemma EndsConfiguring(before: seq<Action>, job: Job, q: seq<JobId>, p: Place, d: map<nat, JobId>, build: string) returns (actions: seq<Action>)
    requires Reaches(before, At(job, q, p, true, d, map[]))
    ensures Reaches(actions, At(job.(buildName := Some(build), status := Building), q, p, false, d, map[]))
  {
    actions := NamesBuild(before, job, q, p, d, build);
    actions := Succeeds(actions, job.(buildName := Some(build)), q, p, d);
  }

  lemma NamesBuild(before: seq<Action>, job: Job, q: seq<JobId>, p: Place, d: map<nat, JobId>, build: string) returns (actions: seq<Action>)
    requires Reaches(before, At(job, q, p, true, d, map[]))
    ensures Reaches(actions, At(job.(buildName := Some(build)), q, p, true, d, map[]))
  {
    var named := job.(buildName := Some(build));
    assert map[0 := job][0 := named] == map[0 := named];
    actions := Then(before, At(job, q, p, true, d, map[]), NameBuild(0, build), At(named, q, p, true, d, map[]));
  }

  lemma Succeeds(before: seq<Action>, job: Job, q: seq<JobId>, p: Place, d: map<nat, JobId>) returns (actions: seq<Action>)
    requires Reaches(before, At(job, q, p, true, d, map[])) && job.buildName.Some?
    ensures Reaches(actions, At(job.(status := Building), q, p, false, d, map[]))
  {
    var building := job.(status := Building);
    assert map[0 := job][0 := building] == map[0 := building] && {0} - {0} == {};
    actions := Then(before, At(job, q, p, true, d, map[]), Configured(0, true), At(building, q, p, false, d, map[]));
  }

  // ---------------------------------------------------------------- a job on its way

  /** A job is published and being configured. */
  lemma Configures(name: string) returns (actions: seq<Action>)
    ensures Reaches(actions, At(Job(name, false, Configuring, None, 1, 0, 0, 1, 0), [0], Idle, true, map[], map[]))
  {
    var job := Job(name, false, Submitted, None, 0, 0, 0, 1, 0);
    actions := Publishes(name);
    assert [0] + [] == [0] && [] + [0] == [0];
    actions := Begins(actions, job, [], false, map[], map[]);
    actions := StartsConfiguring(actions, job);
    actions := Writes(actions, job, [], Effect(Configuring, true, true), false, map[], map[]);
    actions := Requeues(actions, Written(job, Effect(Configuring, true, true)), [], true, map[], map[]);
  }

  lemma StartsConfiguring(before: seq<Action>, job: Job) returns (actions: seq<Action>)
    requires Reaches(before, At(job, [], Checking(0, 0), false, map[], map[])) && job.status.Submitted?
    ensures Reaches(actions, At(job, [], Writing(0, Effect(Configuring, true, true)), false, map[], map[]))
  {
    actions := Checks(before, job, [], false, map[], map[], 0, 0, 5);
    assert map[0 := job][0] == job;
    actions := Then(actions, At(job, [], Checking(0, 5), false, map[], map[]), Check(0),
                    At(job, [], Writing(0, Effect(Configuring, true, true)), false, map[], map[]));
  }

  /** It is built, and a pass over it has found the build and started to deploy it. */
  lemma BeingDeployed(name: string, build: string) returns (actions: seq<Action>)
    ensures Reaches(actions, At(Job(name, false, Building, Some(build), 1, 1, 0, 1, 0), [], Writing(0, DEPLOYS), false, map[], map[]))
  {
    var job := Job(name, false, Building, Some(build), 1, 0, 0, 1, 0);
    actions := Configures(name);
    actions := EndsConfiguring(actions, job.(status := Configuring, buildName := None), [0], Idle, map[], build);
    assert [0] + [] == [0];
    actions := Passing(actions, job, [], map[], map[], 0);
    actions := FindsBuild(actions, job, [], map[], map[]);
    actions := StartsDeployment(actions, job, [], false, map[], map[]);
  }

  /** It is deploying. */
  lemma IsDeploying(name: string, build: string) returns (actions: seq<Action>)
    ensures Reaches(actions, At(Job(name, false, Deploying, Some(build), 1, 1, 0, 1, 0), [0], Idle, false, map[], map[]))
  {
    var job := Job(name, false, Building, Some(build), 1, 1, 0, 1, 0);
    actions := BeingDeployed(name, build);
    actions := Writes(actions, job, [], DEPLOYS, false, map[], map[]);
    actions := Requeues(actions, Written(job, DEPLOYS), [], false, map[], map[]);
    assert [] + [0] == [0];
  }

  // ---------------------------------------------------------------- lost deletions

  /** A lost deletion: the job is at rest with that status and a runner, and nothing will delete it any more. */
  ghost predicate LostBy(actions: seq<Action>, status: Status) {
    var s := Run(Init(), actions);
    && IsRun(Init(), actions) && 0 in s.jobs && s.jobs[0].status == status
    && AtRest(s, 0) && Live(s, 0) > 0 && !CanStillEnd(s, 0)
  }

  lemma EndsLost(actions: seq<Action>, job: Job)
    requires Reaches(actions, At(job, [0], Idle, false, map[], map[])) && !job.status.DeleteDone?
    ensures LostBy(actions, job.status)
  {
    DeletionsEndInThePool(actions, 0);
  }

  lemma LooksTwice(name: string, found: ClusterView) returns (actions: seq<Action>)
    requires !found.status.NotFound? && !found.inUse
    ensures Reaches(actions, At(FoundJob(name, found), [], Idle, false, map[0 := 0], map[0 := Marking(0, Found)]))
  {
    var looking := State(map[], [], Idle, map[], {}, map[], map[0 := SecondLook(name)]);
    actions := Then([], Init(), RequestDelete(0, 0, name), looking);
    actions := Then(actions, looking, LookAgain(0, 0, 0, found),
                    At(FoundJob(name, found), [], Idle, false, map[0 := 0], map[0 := Marking(0, Found)]));
  }

  /** The pool finishes the deletion before the request thread marks the job. */
  lemma LateRequestMark(name: string, found: ClusterView) returns (actions: seq<Action>)
    requires !found.status.NotFound? && !found.inUse
    ensures LostBy(actions, DeleteSubmitted)
  {
    var job := FoundJob(name, found);
    var one: map<nat, JobId> := map[0 := 0];
    actions := LooksTwice(name, found);
    actions := Ends(actions, job, [], Idle, false, one, map[0 := Marking(0, Found)], 0);
    assert one - {0} == map[];
    actions := Marks(actions, job.(status := DeleteDone), [], Idle, false, map[], Found);
    actions := Queues(actions, job.(status := DeleteSubmitted), [], Idle, false, map[], Found);
    assert [] + [0] == [0];
    EndsLost(actions, job.(status := DeleteSubmitted, runners := 1));
  }

  /** A deletion that fails on its way is submitted once more by the monitor, and both end before the monitor marks
      the job. */
  lemma LateResubmissionMark(name: string, found: ClusterView) returns (actions: seq<Action>)
    requires !found.status.NotFound? && !found.inUse
    ensures LostBy(actions, DeleteSubmitted)
  {
    var job := FoundJob(name, found).(status := DeleteRequeue, runners := 1);
    var e := Effect(DeleteSubmitted, true, false);
    var two: map<nat, JobId> := map[0 := 0, 1 := 0];
    actions := Resubmits(name, found);
    actions := Ends(actions, job, [], Writing(0, e), false, two, map[], 0);
    actions := Ends(actions, job.(status := DeleteDone), [], Writing(0, e), false, two - {0}, map[], 1);
    assert two - {0} - {1} == map[];
    actions := Writes(actions, job.(status := DeleteDone), [], e, false, map[], map[]);
    actions := Requeues(actions, job.(status := DeleteSubmitted), [], false, map[], map[]);
    assert [] + [0] == [0];
    EndsLost(actions, job.(status := DeleteSubmitted));
  }

  lemma Resubmits(name: string, found: ClusterView) returns (actions: seq<Action>)
    requires !found.status.NotFound? && !found.inUse
    ensures var job := FoundJob(name, found).(status := DeleteRequeue, runners := 1);
            Reaches(actions, At(job, [], Writing(0, Effect(DeleteSubmitted, true, false)), false, map[0 := 0, 1 := 0], map[]))
  {
    var job := FoundJob(name, found).(status := DeleteRequeue, runners := 1);
    var one: map<nat, JobId> := map[0 := 0];
    actions := SetAside(name, found);
    assert [0] + [] == [0];
    actions := Begins(actions, job, [], false, one, map[]);
    actions := Checks(actions, job, [], false, one, map[], 1, 0, 1);
    assert one[1 := 0] == map[0 := 0, 1 := 0] && map[0 := job][0] == job;
    actions := Then(actions, At(job, [], Checking(0, 1), false, one, map[]), Check(1),
                    At(job, [], Writing(0, Effect(DeleteSubmitted, true, false)), false, one[1 := 0], map[]));
  }

  lemma SetAside(name: string, found: ClusterView) returns (actions: seq<Action>)
    requires !found.status.NotFound? && !found.inUse
    ensures Reaches(actions, At(FoundJob(name, found).(status := DeleteRequeue, runners := 1), [0], Idle, false, map[0 := 0], map[]))
  {
    var job := FoundJob(name, found);
    var queued := job.(status := DeleteSubmitted, runners := 1);
    actions := LooksTwice(name, found);
    actions := Marks(actions, job, [], Idle, false, map[0 := 0], Found);
    actions := Queues(actions, job.(status := DeleteSubmitted), [], Idle, false, map[0 := 0], Found);
    assert [] + [0] == [0] && map[0 := queued][0 := queued.(status := DeleteRequeue)] == map[0 := queued.(status := DeleteRequeue)];
    actions := Then(actions, At(queued, [0], Idle, false, map[0 := 0], map[]), DeletionFails(0),
                    At(queued.(status := DeleteRequeue), [0], Idle, false, map[0 := 0], map[]));
  }

  /** The job is deleted while it is being configured.  The configuration then brings it back to life, and its runner
      deploys it. */
  lemma LateConfiguration(name: string, build: string) returns (actions: seq<Action>)
    ensures LostBy(actions, Deploying) && Deployments(Run(Init(), actions), 0) == 1
  {
    var job := Job(name, false, Configuring, None, 1, 0, 0, 1, 0);
    var built := job.(status := Building, buildName := Some(build));
    actions := Configures(name);
    assert [0] + [] == [0] && [] + [0] == [0];
    actions := Begins(actions, job, [], true, map[], map[]);
    actions := DeletesActive(actions, job, [], Checking(0, 0), true);
    actions := EndsConfiguring(actions, job.(status := DeleteDone), [], Checking(0, 0), map[], build);
    actions := Checks(actions, built, [], false, map[], map[], 0, 0, CHECKS);
    actions := FindsBuild(actions, built, [], map[], map[]);
    actions := StartsDeployment(actions, built, [], false, map[], map[]);
    actions := Writes(actions, built.(deployments := 1), [], DEPLOYS, false, map[], map[]);
    actions := Requeues(actions, built.(deployments := 1, status := Deploying), [], false, map[], map[]);
    EndsLost(actions, built.(deployments := 1, status := Deploying));
  }

  /** The job is deleted while a pass is deploying it; the pass then writes its status. */
  lemma LatePass(name: string, build: string) returns (actions: seq<Action>)
    ensures LostBy(actions, Deploying) && Deployments(Run(Init(), actions), 0) == 1
  {
    var job := Job(name, false, Building, Some(build), 1, 1, 0, 1, 0);
    actions := BeingDeployed(name, build);
    actions := DeletesActive(actions, job, [], Writing(0, DEPLOYS), false);
    actions := Writes(actions, job.(status := DeleteDone), [], DEPLOYS, false, map[], map[]);
    actions := Requeues(actions, job.(status := Deploying), [], false, map[], map[]);
    assert [] + [0] == [0];
    EndsLost(actions, job.(status := Deploying));
  }

  // ---------------------------------------------------------------- a second deployment config

  /** A deploying job is marked for deletion between the two reads of a pass, which deploys it once more. */
  lemma DeployedTwice(name: string, build: string) returns (actions: seq<Action>)
    ensures IsRun(Init(), actions) && Deployments(Run(Init(), actions), 0) == 2
  {
    var job := Job(name, false, Deploying, Some(build), 1, 1, 0, 1, 0);
    actions := IsDeploying(name, build);
    assert [0] + [] == [0];
    actions := Passing(actions, job, [], map[], map[], 0);
    actions := FindsBuild(actions, job, [], map[], map[]);
    actions := Takes(actions, job, [], Rechecking(0), false);
    actions := Marks(actions, job, [], Rechecking(0), false, map[0 := 0], Took);
    actions := StartsDeployment(actions, job.(status := DeleteSubmitted), [], false, map[0 := 0], map[]);
  }

  /** A job is marked between two tests of a pass while it is being configured, so that the pass deploys it before its
      configuration ends and makes it building.  The next pass deploys it once more, undisturbed. */
  lemma DeployedTwiceByLateEnd(name: string, build: string) returns (actions: seq<Action>)
    ensures IsRun(Init(), actions) && Deployments(Run(Init(), actions), 0) == 2
  {
    var job := Job(name, false, Building, Some(build), 1, 1, 0, 1, 0);
    var one: map<nat, JobId> := map[0 := 0];
    actions := DeployedEarly(name, build);
    actions := Succeeds(actions, job.(status := Deploying), [0], Idle, one);
    assert [0] + [] == [0];
    actions := Passing(actions, job, [], one, map[], 1);
    actions := FindsBuild(actions, job, [], one, map[]);
    actions := StartsDeployment(actions, job, [], false, one, map[]);
  }

  lemma DeployedEarly(name: string, build: string) returns (actions: seq<Action>)
    ensures Reaches(actions, At(Job(name, false, Deploying, Some(build), 1, 1, 0, 1, 0), [0], Idle, true, map[0 := 0], map[]))
  {
    var job := Job(name, false, DeleteSubmitted, None, 1, 0, 0, 1, 0);
    var named := job.(buildName := Some(build));
    var one: map<nat, JobId> := map[0 := 0];
    actions := MissedByTests(name);
    actions := NamesBuild(actions, job, [], Fetching(0), one, build);
    actions := Then(actions, At(named, [], Fetching(0), true, one, map[]), Fetch(Complete), At(named, [], Rechecking(0), true, one, map[]));
    actions := StartsDeployment(actions, named, [], true, one, map[]);
    actions := Writes(actions, named.(deployments := 1), [], DEPLOYS, true, one, map[]);
    actions := Requeues(actions, named.(deployments := 1, status := Deploying), [], true, one, map[]);
    assert [] + [0] == [0];
  }

  /** A mark that comes after the first test is not seen by the others. */
  lemma MissedByTests(name: string) returns (actions: seq<Action>)
    ensures Reaches(actions, At(Job(name, false, DeleteSubmitted, None, 1, 0, 0, 1, 0), [], Fetching(0), true, map[0 := 0], map[]))
  {
    var job := Job(name, false, Configuring, None, 1, 0, 0, 1, 0);
    var one: map<nat, JobId> := map[0 := 0];
    actions := Configures(name);
    assert [0] + [] == [0];
    actions := Begins(actions, job, [], true, map[], map[]);
    actions := Checks(actions, job, [], true, map[], map[], 0, 0, 1);
    actions := Takes(actions, job, [], Checking(0, 1), true);
    actions := Marks(actions, job, [], Checking(0, 1), true, one, Took);
    actions := MissedChecks(actions, job.(status := DeleteSubmitted), [], true, one, 1, 1, 6);
  }

  /** Tests after the first do not ask for a mark. */
  lemma {:induction false} MissedChecks(before: seq<Action>, job: Job, q: seq<JobId>, c: bool, d: map<nat, JobId>, task: nat, at: nat, k: nat)
    returns (actions: seq<Action>)
    requires 0 < at && at + k <= CHECKS && job.status.DeleteSubmitted? && task !in d
    requires Reaches(before, At(job, q, Tested(at), c, d, map[]))
    ensures Reaches(actions, At(job, q, Tested(at + k), c, d, map[]))
    decreases k
  {
    if k == 0 {
      actions := before;
    } else {
      assert map[0 := job][0] == job;
      actions := Then(before, At(job, q, Tested(at), c, d, map[]), Check(task), At(job, q, Tested(at + 1), c, d, map[]));
      actions := MissedChecks(actions, job, q, c, d, task, at + 1, k - 1);
    }
  }

  // ---------------------------------------------------------------- a second runner

  /** A pass over a job begins between the two looks of a request, which then queues another runner for it. */
  lemma RacedLook(before: seq<Action>, job: Job) returns (actions: seq<Action>)
    requires Reaches(before, At(job, [0], Idle, false, map[], map[]))
    ensures Reaches(actions, At(job, [], Checking(0, 0), false, map[0 := 0], map[0 := Marking(0, Raced)]))
  {
    var looking: map<nat, Request> := map[0 := SecondLook(job.openShiftName)];
    var found := ClusterView(NotFound, None, false);
    actions := Then(before, At(job, [0], Idle, false, map[], map[]), RequestDelete(0, 0, job.openShiftName),
                    At(job, [0], Idle, false, map[], looking));
    assert [0] + [] == [0];
    actions := Begins(actions, job, [], false, map[], looking);
    actions := Then(actions, At(job, [], Checking(0, 0), false, map[], looking), LookAgain(0, 0, 1, found),
                    At(job, [], Checking(0, 0), false, map[0 := 0], map[0 := Marking(0, Raced)]));
  }

  /** The first runner retires, and the second goes on. */
  lemma TwoRunners(name: string) returns (actions: seq<Action>)
    ensures IsRun(Init(), actions)
    ensures var s := Run(Init(), actions); 0 in s.jobs && s.jobs[0].retired == 1 && Live(s, 0) == 1 && s.jobs[0].runners == 2
  {
    var job := Job(name, false, Submitted, None, 0, 0, 0, 1, 0);
    var one: map<nat, JobId> := map[0 := 0];
    actions := Publishes(name);
    actions := RacedLook(actions, job);
    actions := Marks(actions, job, [], Checking(0, 0), false, one, Raced);
    actions := Queues(actions, job.(status := DeleteSubmitted), [], Checking(0, 0), false, one, Raced);
    assert [] + [0] == [0] && one - {0} == map[];
    var done := job.(status := DeleteDone, runners := 2);
    actions := Ends(actions, job.(status := DeleteSubmitted, runners := 2), [0], Checking(0, 0), false, one, map[], 0);
    actions := Checks(actions, done, [0], false, map[], map[], 0, 0, 2);
    assert map[0 := done][0] == done;
    actions := Then(actions, At(done, [0], Checking(0, 2), false, map[], map[]), Check(0), At(done, [0], Closing(0, false), false, map[], map[]));
    actions := Retires(actions, done, [0], false, map[], map[]);
  }

  /** The second look may also come late in the pass; here the pass then brings the job to its running state. */
  lemma RunsBeforeMark(name: string, build: string) returns (actions: seq<Action>)
    ensures Reaches(actions, At(Job(name, false, Deploying, Some(build), 1, 1, 1, 1, 0), [], Writing(0, Effect(Running, false, false)),
                                false, map[0 := 0], map[0 := Marking(0, Raced)]))
  {
    var job := Job(name, false, Deploying, Some(build), 1, 1, 0, 1, 0);
    var served := job.(services := 1);
    var one: map<nat, JobId> := map[0 := 0];
    var raced: map<nat, Request> := map[0 := Marking(0, Raced)];
    actions := IsDeploying(name, build);
    actions := RacedLook(actions, job);
    actions := Checks(actions, job, [], false, one, raced, 1, 0, CHECKS);
    actions := FindsBuild(actions, job, [], one, raced);
    assert map[0 := job][0 := served] == map[0 := served];
    actions := Then(actions, At(job, [], Rechecking(0), false, one, raced), Recheck(false, false, Ready(false, false)),
                    At(served, [], Writing(0, Effect(Running, false, false)), false, one, raced));
  }

  /** The first runner makes the job running and retires; the second finds it neither deleted nor deploying, and deploys
      it once more, undisturbed. */
  lemma DeployedTwiceBySecondRunner(name: string, build: string) returns (actions: seq<Action>)
    ensures IsRun(Init(), actions) && Deployments(Run(Init(), actions), 0) == 2
  {
    var job := Job(name, false, Deploying, Some(build), 1, 1, 1, 1, 0);
    var e := Effect(Running, false, false);
    var one: map<nat, JobId> := map[0 := 0];
    actions := RunsBeforeMark(name, build);
    actions := Marks(actions, job, [], Writing(0, e), false, one, Raced);
    actions := Queues(actions, job.(status := DeleteSubmitted), [], Writing(0, e), false, one, Raced);
    assert [] + [0] == [0] && [0] + [] == [0];
    actions := Writes(actions, job.(status := DeleteSubmitted, runners := 2), [0], e, false, one, map[]);
    actions := Retires(actions, job.(status := Running, runners := 2), [0], false, one, map[]);
    var left := job.(status := Running, runners := 2, retired := 1);
    actions := Passing(actions, left, [], one, map[], 1);
    actions := FindsBuild(actions, left, [], one, map[]);
    actions := StartsDeployment(actions, left, [], false, one, map[]);
  }
}
