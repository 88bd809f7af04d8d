/** How a job gets a second runner or a second deployment config: exactly by these races. */
module BuildJobRaces {
  import opened BuildJobs
  import opened BuildJobTheorems

  /** The state before action `k` of a run. */
  function Before(actions: seq<Action>, k: nat): State
    requires k <= |actions|
  {
    Run(Init(), actions[..k])
  }

  lemma EarlierState(actions: seq<Action>, k: nat)
    requires k < |actions|
    ensures Before(actions[..|actions| - 1], k) == Before(actions, k)
  {
    assert actions[..|actions| - 1][..k] == actions[..k];
  }

  lemma {:induction false} PrefixIsRun(actions: seq<Action>, k: nat)
    requires IsRun(Init(), actions) && k <= |actions|
    ensures IsRun(Init(), actions[..k])
  {
    if k == |actions| {
      assert actions[..k] == actions;
    } else {
      var n := |actions| - 1;
      PrefixIsRun(actions[..n], k);
      assert actions[..n][..k] == actions[..k];
    }
  }

  // ---------------------------------------------------------------- a second runner

  /** The second look of a request finds the job among the active ones. */
  predicate Races(s: State, a: Action, id: JobId) {
    && a.LookAgain? && a.request in s.requests && s.requests[a.request].SecondLook?
    && var name := s.requests[a.request].name;
    name in s.activeJobs && s.activeJobs[name] == id
  }

  /** The job has been given a second runner, or a request is under way that will do so. */
  ghost predicate HasSecond(s: State, id: JobId) {
    && id in s.jobs
    && (s.jobs[id].runners > 1 || exists r | r in s.requests :: IsRaced(s.requests[r], id))
  }

  predicate IsRaced(r: Request, id: JobId) { !r.SecondLook? && r.job == id && r.kind.Raced? }

  /** Requests other than one stay as they are. */
  ghost predicate OthersStay(s: State, s': State, request: nat) {
    forall r | r != request :: (r in s'.requests <==> r in s.requests) && (r in s.requests ==> s'.requests[r] == s.requests[r])
  }

  /** What one request contributes. */
  predicate RacedFor(s: State, request: nat, id: JobId) { request in s.requests && IsRaced(s.requests[request], id) }

  lemma OneRequestChanges(s: State, s': State, request: nat, id: JobId)
    requires OthersStay(s, s', request) && id in s.jobs && id in s'.jobs && s'.jobs[id].runners == s.jobs[id].runners
    requires RacedFor(s, request, id) ==> RacedFor(s', request, id)
    ensures HasSecond(s', id) <==> HasSecond(s, id) || RacedFor(s', request, id)
  {}

  lemma SecondThroughLook(s: State, request: nat, task: nat, name: string, id: JobId)
    requires Inv(s) && request !in s.requests
    ensures HasSecond(DeleteRequested(s, request, task, name), id) <==> HasSecond(s, id)
  {
    if id in s.jobs { OneRequestChanges(s, DeleteRequested(s, request, task, name), request, id); }
  }

  lemma SecondLookChangesOne(s: State, request: nat, task: nat, i: JobId, found: ClusterView, id: JobId)
    requires id in s.jobs && i !in s.jobs && request in s.requests && s.requests[request].SecondLook?
    ensures var s' := LookedAgain(s, request, task, i, found);
            && OthersStay(s, s', request) && id in s'.jobs && s'.jobs[id] == s.jobs[id]
            && (RacedFor(s', request, id) <==> Races(s, LookAgain(request, task, i, found), id))
  {}

  lemma SecondThroughSecondLook(s: State, request: nat, task: nat, i: JobId, found: ClusterView, id: JobId)
    requires Inv(s) && id in s.jobs && i !in s.jobs
    ensures HasSecond(LookedAgain(s, request, task, i, found), id) <==>
            HasSecond(s, id) || Races(s, LookAgain(request, task, i, found), id)
  {
    var s' := LookedAgain(s, request, task, i, found);
    if request in s.requests && s.requests[request].SecondLook? {
      SecondLookChangesOne(s, request, task, i, found, id);
      OneRequestChanges(s, s', request, id);
    }
  }

  /** A job that is yet to be made has no requests. */
  lemma NoRequestForUnknown(s: State, id: JobId)
    requires RequestsOk(s) && id !in s.jobs
    ensures forall r | r in s.requests :: s.requests[r].SecondLook? || s.requests[r].job != id
  {
    forall r | r in s.requests ensures s.requests[r].SecondLook? || s.requests[r].job != id { assert RequestOk(s, s.requests[r]); }
  }

  /** One that a second look makes has no runner yet, and no other request. */
  lemma NoSecondOfFound(s: State, request: nat, task: nat, i: JobId, found: ClusterView, id: JobId)
    requires Inv(s) && id !in s.jobs && i !in s.jobs
    ensures !HasSecond(LookedAgain(s, request, task, i, found), id) && !HasSecond(s, id)
    ensures !Races(s, LookAgain(request, task, i, found), id)
  {
    NoRequestForUnknown(s, id);
    var s' := LookedAgain(s, request, task, i, found);
    forall r | r in s'.requests ensures !IsRaced(s'.requests[r], id) {
      if r in s.requests { assert s.requests[r].SecondLook? || s.requests[r].job != id; }
    }
  }

  lemma SecondThroughMark(s: State, request: nat, id: JobId)
    requires Inv(s)
    ensures HasSecond(Marked(s, request), id) <==> HasSecond(s, id)
  {
    if id in s.jobs && Marked(s, request) != s { OneRequestChanges(s, Marked(s, request), request, id); }
  }

  lemma SecondThroughQueueing(s: State, request: nat, id: JobId)
    requires Inv(s)
    ensures HasSecond(QueuedRunner(s, request), id) <==> HasSecond(s, id)
  {
    var s' := QueuedRunner(s, request);
    if s' != s && id in s.jobs {
      assert RequestOk(s, s.requests[request]);
      forall r | r in s.requests && r != request ensures RacedFor(s', r, id) == RacedFor(s, r, id) {}
      assert RacedFor(s, request, id) ==> s'.jobs[id].runners > 1;
      assert s'.jobs[id].runners > 1 && s.jobs[id].runners == 1 ==> RacedFor(s, request, id);
    }
  }

  lemma SecondThroughOthers(s: State, s': State, id: JobId)
    requires s'.requests == s.requests && id in s.jobs && id in s'.jobs && s'.jobs[id].runners == s.jobs[id].runners
    ensures HasSecond(s', id) <==> HasSecond(s, id)
  {}

  lemma NoSecondAtFirst(s: State, s': State, id: JobId)
    requires Inv(s) && id !in s.jobs && s'.requests == s.requests && (id in s'.jobs ==> s'.jobs[id].runners <= 1)
    ensures !HasSecond(s', id) && !HasSecond(s, id)
  {
    forall r | r in s.requests ensures !IsRaced(s.requests[r], id) { assert RequestOk(s, s.requests[r]); }
  }

  predicate IsRequestStep(a: Action) { a.RequestDelete? || a.LookAgain? || a.MarkDeleted? || a.QueueRunner? }

  lemma PassesKeepRunners(s: State, a: Action, id: JobId)
    requires id in s.jobs && (a.Check? || a.Fetch? || a.Recheck? || a.WriteStatus? || a.Close? || a.Interrupt? || a.Leave? || a.BeginPass?)
    ensures var s' := Step(s, a);
            s'.requests == s.requests && s'.jobs.Keys == s.jobs.Keys && s'.jobs[id].runners == s.jobs[id].runners
  {
    match a
    case Recheck(_, _, _) =>
    case WriteStatus =>
    case Close =>
    case _ =>
  }

  lemma PoolKeepsRunners(s: State, a: Action, id: JobId)
    requires id in s.jobs && (a.NameBuild? || a.Configured? || a.DeletionFails? || a.DeletionEnds?)
    ensures var s' := Step(s, a);
            s'.requests == s.requests && s'.jobs.Keys == s.jobs.Keys && s'.jobs[id].runners == s.jobs[id].runners
  {}

  lemma OtherStepsKeepRunners(s: State, a: Action, id: JobId)
    requires id in s.jobs && Enabled(s, a) && !IsRequestStep(a)
    ensures Step(s, a).requests == s.requests && id in Step(s, a).jobs && Step(s, a).jobs[id].runners == s.jobs[id].runners
  {
    match a
    case Publish(_, _) =>
    case NameBuild(_, _) => PoolKeepsRunners(s, a, id);
    case Configured(_, _) => PoolKeepsRunners(s, a, id);
    case DeletionFails(_) => PoolKeepsRunners(s, a, id);
    case DeletionEnds(_) => PoolKeepsRunners(s, a, id);
    case _ => PassesKeepRunners(s, a, id);
  }

  lemma NewJobsHaveOneRunner(s: State, a: Action, id: JobId)
    requires id !in s.jobs && !IsRequestStep(a)
    ensures Step(s, a).requests == s.requests && (id in Step(s, a).jobs ==> Step(s, a).jobs[id].runners <= 1)
  {
    match a
    case Recheck(_, _, _) =>
    case _ =>
  }

  lemma SecondStep(s: State, a: Action, id: JobId)
    requires Inv(s) && Enabled(s, a)
    ensures HasSecond(Step(s, a), id) <==> HasSecond(s, id) || Races(s, a, id)
  {
    match a
    case RequestDelete(request, task, name) => SecondThroughLook(s, request, task, name, id);
    case LookAgain(request, task, i, found) =>
      if id in s.jobs { SecondThroughSecondLook(s, request, task, i, found, id); } else { NoSecondOfFound(s, request, task, i, found, id); }
    case MarkDeleted(request) => SecondThroughMark(s, request, id);
    case QueueRunner(request) => SecondThroughQueueing(s, request, id);
    case _ =>
      if id in s.jobs {
        OtherStepsKeepRunners(s, a, id);
        SecondThroughOthers(s, Step(s, a), id);
      } else {
        NewJobsHaveOneRunner(s, a, id);
        NoSecondAtFirst(s, Step(s, a), id);
      }
  }

  /** Some second look of the run found the job active. */
  predicate RacesAt(actions: seq<Action>, id: JobId, k: nat) { k < |actions| && Races(Before(actions, k), actions[k], id) }

  ghost predicate EverRaced(actions: seq<Action>, id: JobId) { exists k: nat :: RacesAt(actions, id, k) }

  lemma RacedStep(actions: seq<Action>, id: JobId)
    requires actions != []
    ensures var n := |actions| - 1;
            EverRaced(actions, id) <==> EverRaced(actions[..n], id) || Races(Before(actions, n), actions[n], id)
  {
    var n := |actions| - 1;
    forall k: nat | k < n ensures RacesAt(actions[..n], id, k) == RacesAt(actions, id, k) { EarlierState(actions, k); }
    if EverRaced(actions[..n], id) {
      var k: nat :| RacesAt(actions[..n], id, k);
      assert RacesAt(actions, id, k);
    }
    if Races(Before(actions, n), actions[n], id) { assert RacesAt(actions, id, n); }
  }

  /** Over every run: a job has a second runner, or is bound to get one, if and only if the second look of some request
      found it active. */
  lemma {:induction false} SecondRunner(actions: seq<Action>, id: JobId)
    requires IsRun(Init(), actions)
    ensures HasSecond(Run(Init(), actions), id) <==> EverRaced(actions, id)
  {
    if actions != [] {
      var n := |actions| - 1;
      SecondRunner(actions[..n], id);
      RacedStep(actions, id);
      InvOverRuns(actions[..n]);
      SecondStep(Before(actions, n), actions[n], id);
    }
  }

  /** Without such a race a job has at most one runner, ever, so that one that has retired is its last. */
  lemma RetiredForGood(actions: seq<Action>, id: JobId)
    requires IsRun(Init(), actions) && id in Run(Init(), actions).jobs && !EverRaced(actions, id)
    ensures var s := Run(Init(), actions);
            s.jobs[id].runners <= 1 && Live(s, id) <= 1 && (s.jobs[id].retired > 0 ==> Live(s, id) == 0)
  {
    SecondRunner(actions, id);
    EveryJob(actions, id);
  }

  // ---------------------------------------------------------------- between the two looks

  /** Action `b` begins a pass over the job. */
  predicate BeginsAt(actions: seq<Action>, id: JobId, b: nat) {
    && b < |actions| && actions[b].BeginPass?
    && var s := Before(actions, b);
    s.monitor.Idle? && s.workQueue != [] && s.workQueue[0] == id
  }

  /** At position `m` the request is between its looks. */
  predicate LooksAt(actions: seq<Action>, request: nat, name: string, m: nat)
    requires m <= |actions|
  {
    var s := Before(actions, m);
    request in s.requests && s.requests[request] == SecondLook(name)
  }

  predicate BusyAt(actions: seq<Action>, id: JobId, m: nat)
    requires m <= |actions|
  {
    Busy(Before(actions, m).monitor, id)
  }

  /** The pass that began with action `b` goes on, and the request has been between its looks from before it on. */
  ghost predicate StraddlesAt(actions: seq<Action>, request: nat, name: string, id: JobId, b: nat) {
    && BeginsAt(actions, id, b)
    && (forall m: nat | b <= m <= |actions| :: LooksAt(actions, request, name, m))
    && (forall m: nat | b < m <= |actions| :: BusyAt(actions, id, m))
  }

  ghost predicate Straddles(actions: seq<Action>, request: nat, name: string, id: JobId) {
    exists b: nat :: StraddlesAt(actions, request, name, id, b)
  }

  lemma StraddlesEarlier(actions: seq<Action>, request: nat, name: string, id: JobId, b: nat)
    requires actions != [] && b < |actions| - 1
    ensures var n := |actions| - 1;
            StraddlesAt(actions, request, name, id, b) <==>
            StraddlesAt(actions[..n], request, name, id, b)
            && LooksAt(actions, request, name, |actions|) && BusyAt(actions, id, |actions|)
  {
    var n := |actions| - 1;
    EarlierState(actions, b);
    forall m: nat | m <= n
      ensures LooksAt(actions[..n], request, name, m) == LooksAt(actions, request, name, m)
      ensures BusyAt(actions[..n], id, m) == BusyAt(actions, id, m)
    {
      if m < n { EarlierState(actions, m); } else { assert actions[..n][..n] == actions[..n]; }
    }
  }

  lemma StraddlesStep(actions: seq<Action>, request: nat, name: string, id: JobId)
    requires actions != []
    ensures var n := |actions| - 1;
            Straddles(actions, request, name, id) <==>
            && LooksAt(actions, request, name, |actions|) && BusyAt(actions, id, |actions|)
            && (Straddles(actions[..n], request, name, id)
                || (BeginsAt(actions, id, n) && LooksAt(actions, request, name, n)))
  {
    var n := |actions| - 1;
    if Straddles(actions, request, name, id) {
      var b: nat :| StraddlesAt(actions, request, name, id, b);
      assert LooksAt(actions, request, name, |actions|) && BusyAt(actions, id, |actions|);
      if b < n { StraddlesEarlier(actions, request, name, id, b); } else { assert LooksAt(actions, request, name, n); }
    }
    if LooksAt(actions, request, name, |actions|) && BusyAt(actions, id, |actions|) {
      if Straddles(actions[..n], request, name, id) {
        var b: nat :| StraddlesAt(actions[..n], request, name, id, b);
        StraddlesEarlier(actions, request, name, id, b);
      }
      if BeginsAt(actions, id, n) && LooksAt(actions, request, name, n) {
        assert StraddlesAt(actions, request, name, id, n);
      }
    }
  }

  /** Only the first look of a request puts it between its looks. */
  lemma LookingComesFromLooking(s: State, a: Action, request: nat, name: string)
    requires Enabled(s, a)
    requires var s' := Step(s, a); request in s'.requests && s'.requests[request] == SecondLook(name)
    ensures (request in s.requests && s.requests[request] == SecondLook(name)) || (a.RequestDelete? && name !in s.activeJobs)
  {
    if !IsRequestStep(a) {
      assert Step(s, a).requests == s.requests;
    } else if a.RequestDelete? {
      assert request == a.request || request in s.requests;
    }
  }

  /** Only the beginning of a pass puts a job on the monitor. */
  lemma BusyComesFromBusy(s: State, a: Action, id: JobId)
    requires Busy(Step(s, a).monitor, id)
    ensures Busy(s.monitor, id) || (a.BeginPass? && s.monitor.Idle? && s.workQueue != [] && s.workQueue[0] == id)
  {
    if a.Check? && s.monitor.Checking? {
      assert AfterCheck(s.monitor.job, s.monitor.at, Submitted).job == s.monitor.job;
    }
  }

  /** How a request and a pass come to overlap. */
  lemma OverlapStep(s: State, a: Action, request: nat, name: string, id: JobId)
    requires Inv(s) && Enabled(s, a) && id in s.jobs && s.jobs[id].openShiftName == name
    requires var s' := Step(s, a); request in s'.requests && s'.requests[request] == SecondLook(name) && Busy(s'.monitor, id)
    ensures request in s.requests && s.requests[request] == SecondLook(name)
    ensures Busy(s.monitor, id) || (a.BeginPass? && s.monitor.Idle? && s.workQueue != [] && s.workQueue[0] == id)
  {
    LookingComesFromLooking(s, a, request, name);
    BusyComesFromBusy(s, a, id);
  }

  lemma NamesStay(s: State, a: Action, id: JobId)
    requires Enabled(s, a) && id in s.jobs
    ensures id in Step(s, a).jobs && Step(s, a).jobs[id].openShiftName == s.jobs[id].openShiftName
  {}

  lemma OnlyKnownJobsBegin(s: State, a: Action, id: JobId)
    requires Inv(s) && Busy(Step(s, a).monitor, id)
    ensures id in s.jobs
  {
    BusyComesFromBusy(s, a, id);
    if s.workQueue != [] { assert s.workQueue[0] in s.workQueue; }
  }

  lemma {:induction false} OverlapIsExact(actions: seq<Action>, request: nat, name: string, id: JobId)
    requires IsRun(Init(), actions)
    requires id in Run(Init(), actions).jobs && Run(Init(), actions).jobs[id].openShiftName == name
    ensures var s := Run(Init(), actions);
            request in s.requests && s.requests[request] == SecondLook(name) && Busy(s.monitor, id)
            <==> Straddles(actions, request, name, id)
  {
    assert actions[..|actions|] == actions;
    if actions != [] {
      var n := |actions| - 1;
      var s, s' := Before(actions, n), Run(Init(), actions);
      InvOverRuns(actions[..n]);
      StraddlesStep(actions, request, name, id);
      if request in s'.requests && s'.requests[request] == SecondLook(name) && Busy(s'.monitor, id) {
        OnlyKnownJobsBegin(s, actions[n], id);
        NamesStay(s, actions[n], id);
        OverlapStep(s, actions[n], request, name, id);
        OverlapIsExact(actions[..n], request, name, id);
      }
    }
  }

  /** For a request between its looks, in every reachable state: a second look now would find the job active, if and
      only if a pass over the job has begun since the first look and is still under way. */
  lemma RacedLookIsExact(actions: seq<Action>, request: nat, name: string, id: JobId)
    requires IsRun(Init(), actions)
    requires var s := Run(Init(), actions);
             request in s.requests && s.requests[request] == SecondLook(name)
             && id in s.jobs && s.jobs[id].openShiftName == name
    ensures var s := Run(Init(), actions);
            name in s.activeJobs && s.activeJobs[name] == id <==> Straddles(actions, request, name, id)
  {
    InvOverRuns(actions);
    OverlapIsExact(actions, request, name, id);
  }

  /** Action `k` is the second look of a request, and a pass over the job that began between its looks is under way. */
  ghost predicate OverlapsAt(actions: seq<Action>, id: JobId, k: nat) {
    && k < |actions| && actions[k].LookAgain?
    && var s, request := Before(actions, k), actions[k].request;
    && request in s.requests && s.requests[request].SecondLook?
    && id in s.jobs && s.jobs[id].openShiftName == s.requests[request].name
    && Straddles(actions[..k], request, s.requests[request].name, id)
  }

  lemma RaceIsOverlap(actions: seq<Action>, id: JobId, k: nat)
    requires IsRun(Init(), actions)
    ensures RacesAt(actions, id, k) <==> OverlapsAt(actions, id, k)
  {
    if k < |actions| && actions[k].LookAgain? {
      var s, request := Before(actions, k), actions[k].request;
      PrefixIsRun(actions, k);
      InvOverRuns(actions[..k]);
      if request in s.requests && s.requests[request].SecondLook? && id in s.jobs && s.jobs[id].openShiftName == s.requests[request].name {
        RacedLookIsExact(actions[..k], request, s.requests[request].name, id);
      }
    }
  }

  /** Over every run: a job has a second runner, or is bound to get one, if and only if a pass over it began between the
      two looks of a request for its name, and was still under way at the second. */
  lemma SecondRunnerIsOverlap(actions: seq<Action>, id: JobId)
    requires IsRun(Init(), actions)
    ensures HasSecond(Run(Init(), actions), id) <==> exists k: nat :: OverlapsAt(actions, id, k)
  {
    SecondRunner(actions, id);
    forall k: nat ensures RacesAt(actions, id, k) <==> OverlapsAt(actions, id, k) { RaceIsOverlap(actions, id, k); }
  }
}
