/** What becomes of the runners of a deleted job. */
module BuildJobVerdicts {
  import opened BuildJobs
  import opened BuildJobTheorems
  import opened BuildJobRaces
  import opened BuildJobDeletions

  // ---------------------------------------------------------------- the monitor's turns

  /** The place of a job's last runner in a queue. */
  function LastOf(q: seq<JobId>, id: JobId): (i: nat)
    requires id in q
    ensures i < |q| && q[i] == id
  {
    var n := |q| - 1;
    if q[n] == id then n else
      assert q == q[..n] + [q[n]];
      LastOf(q[..n], id)
  }

  lemma LastAfterAppend(q: seq<JobId>, other: JobId, id: JobId)
    requires id in q && other != id
    ensures LastOf(q + [other], id) == LastOf(q, id)
  {
    assert (q + [other])[..|q|] == q;
  }

  lemma {:induction false} LastAfterTaking(q: seq<JobId>, id: JobId)
    requires q != [] && id in q[1..]
    ensures id in q && LastOf(q, id) == LastOf(q[1..], id) + 1
  {
    var n := |q| - 1;
    assert q == [q[0]] + q[1..] && q[1..][n - 1] == q[n];
    if q[n] != id {
      assert q[1..] == q[1..][..n - 1] + [q[n]] && q[..n][1..] == q[1..][..n - 1];
      LastAfterTaking(q[..n], id);
    }
  }

  const PASS: nat := 13

  /** The steps that the monitor still takes, at most, in the pass under way. */
  function Under(p: Place): nat {
    match p
    case Idle => 0
    case Leaving(_) => 1
    case Closing(_, _) => 2
    case Writing(_, _) => 3
    case Rechecking(_) => 4
    case Fetching(_) => 5
    case Checking(_, at) => if at <= CHECKS then 12 - at else 5
  }

  /** The steps of the monitor, at most, until the last runner of the job has had its pass. */
  function Turn(s: State, id: JobId): nat {
    if id in s.workQueue then PASS * (LastOf(s.workQueue, id) + 1) + Under(s.monitor)
    else if Runs(s.monitor, id) then Under(s.monitor)
    else 0
  }

  /** The monitor gets on with its work. */
  predicate Works(s: State, a: Action) {
    match a
    case BeginPass => s.monitor.Idle? && s.workQueue != []
    case Interrupt => s.monitor.Checking? && s.monitor.at == 0
    case Check(_) => s.monitor.Checking?
    case Fetch(_) => s.monitor.Fetching?
    case Recheck(_, _, _) => s.monitor.Rechecking?
    case WriteStatus => s.monitor.Writing?
    case Close => s.monitor.Closing?
    case Leave => s.monitor.Leaving?
    case _ => false
  }

  function MonitorSteps(s: State, actions: seq<Action>): nat {
    if actions == [] then 0
    else
      var n := |actions| - 1;
      MonitorSteps(s, actions[..n]) + if Works(Run(s, actions[..n]), actions[n]) then 1 else 0
  }

  // ---------------------------------------------------------------- a job that is done

  predicate Concerns(r: Request, id: JobId) { !r.SecondLook? && r.job == id }

  /** Nothing is outstanding for the job, neither a write of its status nor a runner, and no pass over it is about to
      queue its runner again. */
  ghost predicate AtRest(s: State, id: JobId) {
    && id in s.jobs && !Unsettled(s, id) && (forall r | r in s.requests :: !Concerns(s.requests[r], id))
    && s.monitor != Closing(id, true)
  }

  ghost predicate Over(s: State, id: JobId) { AtRest(s, id) && IsDone(s, id) }

  lemma NoNewRequest(s: State, a: Action, id: JobId)
    requires Inv(s) && Enabled(s, a) && id in s.jobs && !Retries(s, a, id)
    requires forall r | r in s.requests :: !Concerns(s.requests[r], id)
    ensures forall r | r in Step(s, a).requests :: !Concerns(Step(s, a).requests[r], id)
  {
    if !IsRequestStep(a) {
      OtherStepsKeepRunners(s, a, id);
    } else {
      RequestsComeFromRequests(s, a, id);
    }
  }

  lemma RequestsComeFromRequests(s: State, a: Action, id: JobId)
    requires Enabled(s, a) && id in s.jobs && IsRequestStep(a) && !Retries(s, a, id)
    requires forall r | r in s.requests :: !Concerns(s.requests[r], id)
    ensures forall r | r in Step(s, a).requests :: !Concerns(Step(s, a).requests[r], id)
  {
    forall r | r in Step(s, a).requests ensures !Concerns(Step(s, a).requests[r], id) {
      if r in s.requests { assert !Concerns(s.requests[r], id); }
      if a.request in s.requests { assert !Concerns(s.requests[a.request], id); }
    }
  }

  lemma OverStays(s: State, a: Action, id: JobId)
    requires Inv(s) && Enabled(s, a) && Over(s, id) && !Retries(s, a, id)
    ensures Over(Step(s, a), id)
  {
    RestingStays(s, a, id);
    NoNewRequest(s, a, id);
    NeverAgain(s, a, id);
  }

  /** No test that stops a pass over a job that is done queues its runner again. */
  lemma NeverAgain(s: State, a: Action, id: JobId)
    requires PlacesOk(s) && Over(s, id) && Enabled(s, a)
    ensures Step(s, a).monitor != Closing(id, true)
  {
    if s.monitor.Rechecking? && a.Recheck? { assert PlaceOf(s, s.monitor.job) == s.monitor; }
    if s.monitor.Writing? && a.WriteStatus? { assert PlaceOf(s, s.monitor.job) == s.monitor; }
    if s.monitor.Fetching? && a.Fetch? { assert PlaceOf(s, s.monitor.job) == s.monitor; }
    if s.monitor.Checking? && a.Check? { assert PlaceOf(s, s.monitor.job) == s.monitor; }
  }

  lemma TurnThroughBegin(s: State, id: JobId)
    requires PlacesOk(s) && s.monitor.Idle? && s.workQueue != []
    ensures Turn(BegunPass(s), id) + 1 <= Turn(s, id) || Turn(BegunPass(s), id) == 0
  {
    assert s.workQueue[0] in s.workQueue && s.workQueue == [s.workQueue[0]] + s.workQueue[1..];
    if id in s.workQueue[1..] { LastAfterTaking(s.workQueue, id); }
  }

  lemma TurnThroughClose(s: State, id: JobId)
    requires PlacesOk(s) && s.monitor.Closing? && s.monitor != Closing(id, true)
    ensures Turn(Closed(s), id) + 1 <= Turn(s, id) || Turn(Closed(s), id) == 0
  {
    if s.monitor.again && id in s.workQueue { LastAfterAppend(s.workQueue, s.monitor.job, id); }
  }

  /** The other steps of a pass leave the queue alone. */
  lemma TurnThroughPass(s: State, a: Action, id: JobId)
    requires PlacesOk(s) && Works(s, a) && !a.BeginPass? && !a.Close?
    ensures Turn(Step(s, a), id) + 1 <= Turn(s, id) || Turn(Step(s, a), id) == 0
  {
    UnderGoesDown(s, a);
  }

  lemma UnderGoesDown(s: State, a: Action)
    requires PlacesOk(s) && Works(s, a) && !a.BeginPass? && !a.Close?
    ensures var s' := Step(s, a);
            && s'.workQueue == s.workQueue && Under(s'.monitor) + 1 <= Under(s.monitor)
            && (s'.monitor.Idle? || (!s.monitor.Leaving? && !s'.monitor.Leaving? && s'.monitor.job == s.monitor.job))
  {}

  /** Steps of other threads queue runners of other jobs only. */
  lemma QueueThroughOthers(s: State, a: Action, id: JobId)
    requires Inv(s) && Enabled(s, a) && Over(s, id) && !Works(s, a)
    ensures var s' := Step(s, a);
            && s'.monitor == s.monitor
            && (s'.workQueue == s.workQueue || exists other | other != id :: s'.workQueue == s.workQueue + [other])
  {
    if a.Publish? {
      assert a.id != id;
    } else if a.QueueRunner? {
      if a.request in s.requests && s.requests[a.request].Queueing? { assert s.requests[a.request].job != id; }
    } else {
      QueueStays(s, a);
    }
  }

  lemma QueueStays(s: State, a: Action)
    requires PlacesOk(s) && !Works(s, a) && !a.Publish? && !a.QueueRunner?
    ensures Step(s, a).workQueue == s.workQueue && Step(s, a).monitor == s.monitor
  {}

  lemma TurnThroughOthers(s: State, a: Action, id: JobId)
    requires Inv(s) && Enabled(s, a) && Over(s, id) && !Works(s, a)
    ensures Turn(Step(s, a), id) == Turn(s, id)
  {
    QueueThroughOthers(s, a, id);
    var s' := Step(s, a);
    if s'.workQueue != s.workQueue {
      var other :| other != id && s'.workQueue == s.workQueue + [other];
      if id in s.workQueue { LastAfterAppend(s.workQueue, other, id); }
    }
  }

  /** Every step of the monitor brings the last pass over a job that is done closer: thirteen steps, at most, for each
      runner up to the last of its own. */
  lemma TurnComesCloser(s: State, a: Action, id: JobId)
    requires Inv(s) && Enabled(s, a) && Over(s, id)
    ensures var t := Turn(Step(s, a), id);
            if Works(s, a) then t + 1 <= Turn(s, id) || t == 0 else t == Turn(s, id)
  {
    if !Works(s, a) {
      TurnThroughOthers(s, a, id);
    } else if a.BeginPass? {
      TurnThroughBegin(s, id);
    } else if a.Close? {
      TurnThroughClose(s, id);
    } else {
      TurnThroughPass(s, a, id);
    }
  }

  lemma {:induction false} TurnComes(s: State, more: seq<Action>, id: JobId)
    requires Inv(s) && IsRun(s, more) && NeverRetries(s, more, id) && Over(s, id)
    ensures var t := Run(s, more);
            Over(t, id) && (Turn(t, id) + MonitorSteps(s, more) <= Turn(s, id) || Turn(t, id) == 0)
  {
    if more != [] {
      var n := |more| - 1;
      var u := Run(s, more[..n]);
      TurnComes(s, more[..n], id);
      InvFrom(s, more[..n]);
      OverStays(u, more[n], id);
      TurnComesCloser(u, more[n], id);
    }
  }

  lemma NoTurnNoRunner(s: State, id: JobId)
    requires Turn(s, id) == 0
    ensures Live(s, id) == 0
  {}

  /** The verdict on a requested deletion.  Once a job is at rest, then in every continuation without another request
      in which the monitor gets to all its runners, the job ends up done with every runner retired, if and only if the
      end of a deletion was the last word about it. */
  lemma DeletionVerdict(actions: seq<Action>, more: seq<Action>, id: JobId)
    requires IsRun(Init(), actions)
    requires var s := Run(Init(), actions);
             IsRun(s, more) && NeverRetries(s, more, id) && AtRest(s, id) && MonitorSteps(s, more) >= Turn(s, id)
    ensures var t := Run(Run(Init(), actions), more);
            IsDone(t, id) && Live(t, id) == 0 <==> LastWord(actions, id).ByDeletion?
  {
    var s := Run(Init(), actions);
    InvOverRuns(actions);
    WordOverRuns(actions, id);
    LastWordDecides(actions, id);
    if IsDone(s, id) {
      TurnComes(s, more, id);
      NoTurnNoRunner(Run(s, more), id);
    } else {
      NeverDone(s, more, id);
    }
  }

  // ---------------------------------------------------------------- lost deletions

  /** A runner of the job goes on. */
  predicate GoesOn(s: State, id: JobId) { id in s.workQueue || s.monitor == Checking(id, 0) || s.monitor == Closing(id, true) }

  lemma GoesOnThroughTurn(s: State, a: Action, id: JobId)
    requires PlacesOk(s) && GoesOn(s, id) && (a.BeginPass? || a.Close?)
    ensures GoesOn(Step(s, a), id)
  {
    if s.workQueue != [] { assert s.workQueue == [s.workQueue[0]] + s.workQueue[1..]; }
  }

  lemma GoesOnOtherwise(s: State, a: Action, id: JobId)
    requires PlacesOk(s) && id in s.jobs && s.jobs[id].status.DeleteSubmitted? && GoesOn(s, id)
    requires !a.BeginPass? && !a.Close? && !a.Interrupt?
    ensures GoesOn(Step(s, a), id)
  {
    assert id in s.workQueue ==> id in Step(s, a).workQueue;
  }

  /** A deleted job that its runner will watch for ever: it is marked as submitted for deletion, and nothing
      outstanding would change that. */
  ghost predicate Lost(s: State, id: JobId) { Resting(s, id) && !IsDone(s, id) }

  /** Until another request takes the very job, a lost deletion stays lost, and its runner requeues itself. */
  lemma {:induction false} LostForGood(s: State, more: seq<Action>, id: JobId)
    requires Inv(s) && IsRun(s, more) && NeverRetries(s, more, id) && (forall a | a in more :: !a.Interrupt?)
    requires Lost(s, id) && GoesOn(s, id)
    ensures Lost(Run(s, more), id) && GoesOn(Run(s, more), id)
  {
    if more != [] {
      var n := |more| - 1;
      assert forall a | a in more[..n] :: a in more;
      var u := Run(s, more[..n]);
      LostForGood(s, more[..n], id);
      InvFrom(s, more[..n]);
      RestingStays(u, more[n], id);
      if more[n].BeginPass? || more[n].Close? { GoesOnThroughTurn(u, more[n], id); } else { GoesOnOtherwise(u, more[n], id); }
    }
  }
}
