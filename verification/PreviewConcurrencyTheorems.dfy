/** What holds of served previews in every interleaving. */
module PreviewConcurrencyTheorems {
  import opened Prelude
  import opened PreviewConcurrency

  /** A step changes the thread's own place and its own locks only. */
  ghost predicate OwnPlaceOnly(s: State, s': State, t: Thread)
    requires t in s.callers
  {
    && s'.callers.Keys == s.callers.Keys && (forall u | u in s.callers && u != t :: s'.callers[u] == s.callers[u])
    && s'.callers[t].dv == s.callers[t].dv
    && s'.versions == s.versions && s'.epoch == s.epoch && s'.round == s.round && s'.refresh == s.refresh
    && (forall k: int | k in s.locks && s.locks[k] != t :: k in s'.locks && s'.locks[k] == s.locks[k])
    && (s.master.Some? && s.master != Some(t) ==> s'.master == s.master)
  }

  ghost predicate OwnPreviewOnly(s: State, s': State, dv: string) {
    forall d: string | d != dv :: (d in s'.previews <==> d in s.previews) && (d in s.previews ==> s'.previews[d] == s.previews[d])
  }

  lemma AskIsLocal(stripe: string -> int, s: State, t: Thread)
    requires t in s.callers && LockOk(stripe, s, t, s.callers[t]) && !HoldsLock(s.callers[t])
    ensures OwnPlaceOnly(s, Asked(stripe, s, t), t)
    ensures Asked(stripe, s, t).previews == s.previews
  {}

  lemma PrepareIsLocal(stripe: string -> int, s: State, t: Thread, throws: bool)
    requires t in s.callers && LockOk(stripe, s, t, s.callers[t]) && HoldsLock(s.callers[t]) && !HoldsMaster(s.callers[t])
    ensures OwnPlaceOnly(s, Prepared(stripe, s, t, throws), t)
    ensures Prepared(stripe, s, t, throws).previews == s.previews
  {}

  lemma DeployIsLocal(stripe: string -> int, s: State, t: Thread, throws: bool)
    requires t in s.callers && LockOk(stripe, s, t, s.callers[t]) && HoldsMaster(s.callers[t])
    ensures OwnPlaceOnly(s, Deployed(stripe, s, t, throws), t)
    ensures OwnPreviewOnly(s, Deployed(stripe, s, t, throws), s.callers[t].dv)
  {}

  /** A thread changes only its own place, its own locks, and, under the master lock, its own preview. */
  lemma AdvanceIsLocal(stripe: string -> int, s: State, t: Thread, throws: bool)
    requires t in s.callers && LockOk(stripe, s, t, s.callers[t])
    ensures OwnPlaceOnly(s, Advanced(stripe, s, t, throws), t)
    ensures OwnPreviewOnly(s, Advanced(stripe, s, t, throws), s.callers[t].dv)
    ensures !HoldsMaster(s.callers[t]) ==> Advanced(stripe, s, t, throws).previews == s.previews
  {
    if HoldsMaster(s.callers[t]) {
      DeployIsLocal(stripe, s, t, throws);
    } else if HoldsLock(s.callers[t]) {
      PrepareIsLocal(stripe, s, t, throws);
    } else {
      AskIsLocal(stripe, s, t);
    }
  }

  lemma AskKeepsOwnLocks(stripe: string -> int, s: State, t: Thread)
    requires t in s.callers && LockOk(stripe, s, t, s.callers[t]) && !HoldsLock(s.callers[t])
    ensures LockOk(stripe, Asked(stripe, s, t), t, Asked(stripe, s, t).callers[t])
  {}

  lemma PrepareKeepsOwnLocks(stripe: string -> int, s: State, t: Thread, throws: bool)
    requires t in s.callers && LockOk(stripe, s, t, s.callers[t]) && HoldsLock(s.callers[t]) && !HoldsMaster(s.callers[t])
    ensures LockOk(stripe, Prepared(stripe, s, t, throws), t, Prepared(stripe, s, t, throws).callers[t])
  {}

  lemma OwnLocksSurvive(stripe: string -> int, s: State, t: Thread, throws: bool)
    requires t in s.callers && LockOk(stripe, s, t, s.callers[t])
    ensures LockOk(stripe, Advanced(stripe, s, t, throws), t, Advanced(stripe, s, t, throws).callers[t])
  {
    if !HoldsLock(s.callers[t]) {
      AskKeepsOwnLocks(stripe, s, t);
    } else if !HoldsMaster(s.callers[t]) {
      PrepareKeepsOwnLocks(stripe, s, t, throws);
    }
  }

  lemma LocksSurvive(stripe: string -> int, s: State, a: Action)
    requires LocksAgree(stripe, s)
    ensures LocksAgree(stripe, Step(stripe, s, a))
  {
    if a.Advance? && a.t in s.callers {
      AdvanceIsLocal(stripe, s, a.t, a.throws);
      OwnLocksSurvive(stripe, s, a.t, a.throws);
    }
  }

  lemma RoundsSurviveAdvance(stripe: string -> int, s: State, t: Thread, throws: bool)
    requires RoundsAgree(s) && PreviewsOk(s) && t in s.callers && LockOk(stripe, s, t, s.callers[t])
    ensures RoundsAgree(Advanced(stripe, s, t, throws))
  {
    AdvanceIsLocal(stripe, s, t, throws);
  }

  lemma RoundsSurvive(stripe: string -> int, s: State, a: Action)
    requires RoundsAgree(s) && PreviewsOk(s) && LocksAgree(stripe, s)
    ensures RoundsAgree(Step(stripe, s, a))
  {
    if a.Advance? && a.t in s.callers { RoundsSurviveAdvance(stripe, s, a.t, a.throws); }
  }

  lemma OwnAskIsOk(stripe: string -> int, s: State, t: Thread)
    requires t in s.callers && CallerOk(s, s.callers[t]) && PreviewsOk(s) && !HoldsLock(s.callers[t])
    ensures CallerOk(Asked(stripe, s, t), Asked(stripe, s, t).callers[t])
  {}

  lemma OwnPrepareIsOk(stripe: string -> int, s: State, t: Thread, throws: bool)
    requires t in s.callers && CallerOk(s, s.callers[t]) && PreviewsOk(s) && HoldsLock(s.callers[t]) && !HoldsMaster(s.callers[t])
    ensures CallerOk(Prepared(stripe, s, t, throws), Prepared(stripe, s, t, throws).callers[t])
  {}

  lemma OwnStepIsOk(stripe: string -> int, s: State, t: Thread, throws: bool)
    requires t in s.callers && CallerOk(s, s.callers[t]) && PreviewsOk(s)
    ensures CallerOk(Advanced(stripe, s, t, throws), Advanced(stripe, s, t, throws).callers[t])
  {
    if !HoldsLock(s.callers[t]) {
      OwnAskIsOk(stripe, s, t);
    } else if !HoldsMaster(s.callers[t]) {
      OwnPrepareIsOk(stripe, s, t, throws);
    }
  }

  lemma PreviewsSurviveAdvance(stripe: string -> int, s: State, t: Thread, throws: bool)
    requires t in s.callers && LockOk(stripe, s, t, s.callers[t]) && CallerOk(s, s.callers[t]) && PreviewsOk(s)
    ensures PreviewsOk(Advanced(stripe, s, t, throws))
  {
    AdvanceIsLocal(stripe, s, t, throws);
  }

  /** Nobody but the thread itself deploys under its stripe lock. */
  lemma CallersSurviveAdvance(stripe: string -> int, s: State, t: Thread, throws: bool)
    requires Inv(stripe, s) && t in s.callers
    ensures CallersOk(Advanced(stripe, s, t, throws))
  {
    var s' := Advanced(stripe, s, t, throws);
    AdvanceIsLocal(stripe, s, t, throws);
    OwnStepIsOk(stripe, s, t, throws);
    forall u | u in s'.callers && u != t ensures CallerOk(s', s'.callers[u]) {
      assert CallerOk(s, s.callers[u]) && LockOk(stripe, s, u, s.callers[u]);
    }
  }

  lemma CallersSurviveEnvironment(stripe: string -> int, s: State, a: Action)
    requires Inv(stripe, s) && !a.Advance?
    ensures PreviewsOk(Step(stripe, s, a)) && CallersOk(Step(stripe, s, a))
  {
    var s' := Step(stripe, s, a);
    forall u | u in s'.callers && u in s.callers ensures CallerOk(s', s'.callers[u]) {
      assert CallerOk(s, s.callers[u]);
    }
  }

  lemma StepKeepsInv(stripe: string -> int, s: State, a: Action)
    requires Inv(stripe, s)
    ensures Inv(stripe, Step(stripe, s, a))
  {
    LocksSurvive(stripe, s, a);
    RoundsSurvive(stripe, s, a);
    if a.Advance? {
      if a.t in s.callers {
        CallersSurviveAdvance(stripe, s, a.t, a.throws);
        PreviewsSurviveAdvance(stripe, s, a.t, a.throws);
      }
    } else {
      CallersSurviveEnvironment(stripe, s, a);
    }
  }

  lemma {:induction false} InvOverRuns(stripe: string -> int, actions: seq<Action>)
    ensures Inv(stripe, Run(stripe, Init, actions))
  {
    if actions != [] {
      InvOverRuns(stripe, actions[..|actions| - 1]);
      StepKeepsInv(stripe, Run(stripe, Init, actions[..|actions| - 1]), actions[|actions| - 1]);
    }
  }

  /** In every interleaving, a preview handed to a caller carries exactly the version that the caller's
      transaction read; and if that is still the current version, it was built from that version's views. */
  lemma ServedVersion(stripe: string -> int, actions: seq<Action>, t: Thread)
    requires var s := Run(stripe, Init, actions);
             t in s.callers && s.callers[t].Returned? && s.callers[t].result.Some?
    ensures var s := Run(stripe, Init, actions);
            var c := s.callers[t];
            && c.result.value.version == c.v
            && c.dv in s.versions
            && (c.v == s.versions[c.dv] ==> c.result.value.content == s.versions[c.dv])
  {
    InvOverRuns(stripe, actions);
  }

  /** Between refreshes, a deployed preview predates the master exactly when it was deployed during the last
      refresh, and never by more than that one refresh. */
  lemma StaleImports(stripe: string -> int, actions: seq<Action>, dv: string)
    requires var s := Run(stripe, Init, actions); s.refresh.Idle? && dv in s.previews
    ensures var s := Run(stripe, Init, actions);
            var p := s.previews[dv];
            && (p.base < s.epoch <==> p.window == Some(s.round))
            && p.base + 1 >= s.epoch
  {
    InvOverRuns(stripe, actions);
  }

  // ---------------------------------------------------------------- one deployment suffices

  lemma UndisturbedAsk(stripe: string -> int, s: State, t: Thread, dv: string, n: nat)
    requires Inv(stripe, s) && Undisturbed(s, dv, n) && t in s.callers && !HoldsLock(s.callers[t])
    ensures Undisturbed(Asked(stripe, s, t), dv, n)
  {
    AskIsLocal(stripe, s, t);
    OwnAskReads(stripe, s, t, dv, n);
  }

  lemma UndisturbedPrepare(stripe: string -> int, s: State, t: Thread, throws: bool, dv: string, n: nat)
    requires Inv(stripe, s) && Undisturbed(s, dv, n) && t in s.callers && HoldsLock(s.callers[t]) && !HoldsMaster(s.callers[t])
    ensures Undisturbed(Prepared(stripe, s, t, throws), dv, n)
  {
    PrepareIsLocal(stripe, s, t, throws);
    OwnPrepareReads(stripe, s, t, throws, dv, n);
  }

  lemma OwnAskReads(stripe: string -> int, s: State, t: Thread, dv: string, n: nat)
    requires Undisturbed(s, dv, n) && t in s.callers && !HoldsLock(s.callers[t])
    ensures var c := Asked(stripe, s, t).callers[t];
            c.dv == dv ==> ReadVersion(c, s.versions[dv]) && (n == 1 ==> !Replacing(c))
  {}

  lemma OwnPrepareReads(stripe: string -> int, s: State, t: Thread, throws: bool, dv: string, n: nat)
    requires Undisturbed(s, dv, n) && t in s.callers && HoldsLock(s.callers[t]) && !HoldsMaster(s.callers[t])
    ensures var c := Prepared(stripe, s, t, throws).callers[t];
            c.dv == dv ==> ReadVersion(c, s.versions[dv]) && (n == 1 ==> !Replacing(c))
  {}

  lemma UndisturbedDeploy(stripe: string -> int, s: State, t: Thread, throws: bool, dv: string, n: nat)
    requires Inv(stripe, s) && Undisturbed(s, dv, n) && t in s.callers && HoldsMaster(s.callers[t])
    ensures Undisturbed(Deployed(stripe, s, t, throws), dv, n + if DeploysPreview(s, Advance(t, throws), dv) then 1 else 0)
  {
    DeployIsLocal(stripe, s, t, throws);
    if s.callers[t].dv == dv {
      forall u | u in s.callers && u != t && s.callers[u].dv == dv ensures !Replacing(s.callers[u]) {
        assert LockOk(stripe, s, u, s.callers[u]) && LockOk(stripe, s, t, s.callers[t]);
      }
    }
  }

  lemma UndisturbedStep(stripe: string -> int, s: State, a: Action, dv: string, n: nat)
    requires Inv(stripe, s) && Undisturbed(s, dv, n) && LeavesAlone(a, dv)
    ensures Undisturbed(Step(stripe, s, a), dv, n + if DeploysPreview(s, a, dv) then 1 else 0)
  {
    if a.Advance? && a.t in s.callers {
      if HoldsMaster(s.callers[a.t]) {
        UndisturbedDeploy(stripe, s, a.t, a.throws, dv, n);
      } else if HoldsLock(s.callers[a.t]) {
        UndisturbedPrepare(stripe, s, a.t, a.throws, dv, n);
      } else {
        UndisturbedAsk(stripe, s, a.t, dv, n);
      }
    }
  }

  /** However many callers ask for a preview, and in whatever interleaving, it is deployed at most once for as
      long as nobody edits the virtualization or takes its preview away. */
  lemma {:induction false} AtMostOneDeployment(stripe: string -> int, before: seq<Action>, actions: seq<Action>, dv: string)
    requires var s := Run(stripe, Init, before); dv in s.versions && NoneUnderWay(s, dv)
    requires forall a | a in actions :: LeavesAlone(a, dv)
    ensures Deployments(stripe, Run(stripe, Init, before), actions, dv) <= 1
    ensures var s := Run(stripe, Init, before);
            Inv(stripe, Run(stripe, s, actions))
            && Undisturbed(Run(stripe, s, actions), dv, Deployments(stripe, s, actions, dv))
  {
    var s := Run(stripe, Init, before);
    if actions == [] {
      InvOverRuns(stripe, before);
    } else {
      var front, last := actions[..|actions| - 1], actions[|actions| - 1];
      assert forall a | a in front :: a in actions;
      AtMostOneDeployment(stripe, before, front, dv);
      StepKeepsInv(stripe, Run(stripe, s, front), last);
      UndisturbedStep(stripe, Run(stripe, s, front), last, dv, Deployments(stripe, s, front, dv));
    }
  }

  // ---------------------------------------------------------------- previews older than the master

  /** A step appended to a run. */
  lemma Extend(stripe: string -> int, actions: seq<Action>, a: Action) returns (longer: seq<Action>, s: State)
    ensures s == Run(stripe, Init, longer) == Step(stripe, Run(stripe, Init, actions), a)
  {
    longer := actions + [a];
    assert longer[..|actions|] == actions;
    s := Run(stripe, Init, longer);
  }

  /** One request, for the virtualization "d", is under way. */
  ghost predicate Lone(s: State, c: Caller, refresh: Refresh, round: nat) {
    && s.versions == map["d" := 0] && s.callers == map[0 := c]
    && s.refresh == refresh && s.epoch == 0 && s.round == round && (s.master.Some? <==> HoldsMaster(c))
  }

  lemma OneRequestChecks(stripe: string -> int) returns (acts: seq<Action>)
    ensures var s := Run(stripe, Init, acts); Lone(s, Checking("d", 0), Idle, 0) && s.previews == map[]
  {
    var s;
    acts, s := Extend(stripe, [], Create("d"));
    acts, s := Extend(stripe, acts, Call(0, "d"));
    assert Lone(s, Starting("d"), Idle, 0);
    acts, s := Extend(stripe, acts, Advance(0, false));
    acts, s := Extend(stripe, acts, Advance(0, false));
    assert Lone(s, Waiting("d", 0), Idle, 0);
    acts, s := Extend(stripe, acts, Advance(0, false));
  }

  lemma RefreshOvertakes(stripe: string -> int) returns (acts: seq<Action>)
    ensures var s := Run(stripe, Init, acts); Lone(s, Ready("d", 0, 0), Scanning({}), 1) && s.previews == map[]
  {
    var s;
    acts := OneRequestChecks(stripe);
    acts, s := Extend(stripe, acts, BeginRefresh);
    assert s.refresh.todo == {};
    assert Lone(s, Checking("d", 0), Scanning({}), 1);
    acts, s := Extend(stripe, acts, Advance(0, false));
    assert Lone(s, Building("d", 0), Scanning({}), 1);
    acts, s := Extend(stripe, acts, Advance(0, false));
  }

  lemma RequestDeploys(stripe: string -> int) returns (acts: seq<Action>)
    ensures var s := Run(stripe, Init, acts);
            Lone(s, Fetching("d", 0), Scanning({}), 1) && "d" in s.previews && s.previews["d"].base == 0
  {
    var s;
    acts := RefreshOvertakes(stripe);
    acts, s := Extend(stripe, acts, Advance(0, false));
    assert Lone(s, Clearing("d", 0, 0), Scanning({}), 1);
    acts, s := Extend(stripe, acts, Advance(0, false));
    assert Lone(s, Putting("d", 0, 0), Scanning({}), 1);
    acts, s := Extend(stripe, acts, Advance(0, false));
  }

  /** It does happen: a request that deploys between the refresh's scan and its redeployment of the master
      leaves a preview built over imports that are already obsolete. */
  lemma ImportsCanBeStale(stripe: string -> int) returns (acts: seq<Action>)
    ensures var s := Run(stripe, Init, acts);
            s.refresh.Idle? && "d" in s.previews && s.previews["d"].base < s.epoch
  {
    var s;
    acts := RequestDeploys(stripe);
    acts, s := Extend(stripe, acts, Advance(0, false));
    assert "d" in s.previews && s.master == None;
    acts, s := Extend(stripe, acts, FinishRefresh);
  }
}
