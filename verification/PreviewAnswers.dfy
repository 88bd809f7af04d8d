/** Which answer a request gets: told, over all interleavings, from what happened while it was under way. */
module PreviewAnswers {
  import opened Prelude
  import opened PreviewConcurrency
  import opened PreviewConcurrencyTheorems

  // ---------------------------------------------------------------- what happened to a request

  /** What a run has done to a thread's request: the version it read, the preview of that version it came upon,
      the version of the views it built from, the preview it deployed, whether that preview was removed before
      it looked it up, whether it has looked, and whether something broke it off. */
  datatype Story = Story(read: Option<nat>, seen: Option<Preview>, built: Option<nat>, own: Option<Preview>,
                         removed: bool, looked: bool, broken: bool)

  const Blank := Story(None, None, None, None, false, false, false)

  /** The thread's own step, taken from where `s` has it. */
  predicate Turn(s: State, a: Action, t: Thread) { a.Advance? && a.t == t && t in s.callers }

  /** It looks, or looks again under the lock, and there is a preview of the version it has read. */
  predicate ComesUpon(s: State, a: Action, t: Thread, h: Story) {
    && Turn(s, a, t) && (s.callers[t].Looking? || s.callers[t].Checking?)
    && s.callers[t].dv in s.previews && h.read == Some(s.previews[s.callers[t].dv].version)
  }

  predicate Reads(s: State, a: Action, t: Thread) {
    Turn(s, a, t) && s.callers[t].Starting? && s.callers[t].dv in s.versions
  }

  predicate Builds(s: State, a: Action, t: Thread) {
    Turn(s, a, t) && s.callers[t].Building? && !a.throws && s.callers[t].dv in s.versions
  }

  predicate Deploys(s: State, a: Action, t: Thread) { Turn(s, a, t) && s.callers[t].Putting? && !a.throws }

  predicate LooksUp(s: State, a: Action, t: Thread) { Turn(s, a, t) && s.callers[t].Fetching? }

  /** Somebody removes the preview between the thread's deployment and its look-up. */
  predicate Loses(s: State, a: Action, t: Thread, h: Story) {
    t in s.callers && a == Remove(s.callers[t].dv) && h.own.Some? && !h.looked
  }

  /** There is no such virtualization, or building or deploying throws. */
  predicate Breaks(s: State, a: Action, t: Thread) {
    && Turn(s, a, t)
    && match s.callers[t]
       case Starting(dv) => dv !in s.versions
       case Building(dv, _) => a.throws || dv !in s.versions
       case Putting(_, _, _) => a.throws
       case _ => false
  }

  function Window(s: State): Option<nat> { if s.refresh.Scanning? then Some(s.round) else None }

  function Continued(s: State, a: Action, t: Thread, h: Story): Story {
    if Reads(s, a, t) then h.(read := Some(s.versions[s.callers[t].dv]))
    else if ComesUpon(s, a, t, h) then h.(seen := Some(s.previews[s.callers[t].dv]))
    else if Builds(s, a, t) then h.(built := Some(s.versions[s.callers[t].dv]))
    else if Deploys(s, a, t) && h.read.Some? && h.built.Some?
    then h.(own := Some(Preview(h.read.value, h.built.value, s.epoch, Window(s))))
    else if Loses(s, a, t, h) then h.(removed := true)
    else if LooksUp(s, a, t) then h.(looked := true)
    else if Breaks(s, a, t) then h.(broken := true)
    else h
  }

  function Told(stripe: string -> int, actions: seq<Action>, t: Thread): Story {
    if actions == [] then Blank
    else
      var front := actions[..|actions| - 1];
      Continued(Run(stripe, Init, front), actions[|actions| - 1], t, Told(stripe, front, t))
  }

  /** What a finished look, early or late, comes to. */
  predicate Answered(h: Story, result: Option<Preview>) {
    && !h.broken
    && if h.seen.Some? then h.own.None? && !h.removed && result == h.seen
       else h.own.Some? && h.looked && result == if h.removed then None else h.own
  }

  predicate StoryOk(s: State, t: Thread, h: Story) {
    if t !in s.callers then h == Blank
    else
      match s.callers[t]
      case Starting(_) => h == Blank
      case Failed(_) => h.own.None? && h.seen.None? && !h.removed && h.broken
      case Looking(_, v) => h == Blank.(read := Some(v))
      case Waiting(_, v) => h == Blank.(read := Some(v))
      case Checking(_, v) => h == Blank.(read := Some(v))
      case Building(_, v) => h == Blank.(read := Some(v))
      case Ready(_, v, content) => h == Blank.(read := Some(v), built := Some(content))
      case Clearing(_, v, content) => h == Blank.(read := Some(v), built := Some(content))
      case Putting(dv, v, content) => h == Blank.(read := Some(v), built := Some(content)) && dv !in s.previews
      case Fetching(dv, v) =>
        && h.read == Some(v) && h.seen.None? && h.own.Some? && !h.looked && !h.broken
        && Found(s, dv) == if h.removed then None else h.own
      case Unlocking(_, v, result) => h.read == Some(v) && Answered(h, result)
      case Returned(_, v, result) => h.read == Some(v) && Answered(h, result)
  }

  lemma OwnAskIsTold(stripe: string -> int, s: State, t: Thread, throws: bool, h: Story)
    requires StoryOk(s, t, h) && t in s.callers && !HoldsLock(s.callers[t])
    ensures StoryOk(Asked(stripe, s, t), t, Continued(s, Advance(t, throws), t, h))
  {}

  lemma OwnPrepareIsTold(stripe: string -> int, s: State, t: Thread, throws: bool, h: Story)
    requires StoryOk(s, t, h) && t in s.callers && HoldsLock(s.callers[t]) && !HoldsMaster(s.callers[t])
    ensures StoryOk(Prepared(stripe, s, t, throws), t, Continued(s, Advance(t, throws), t, h))
  {}

  lemma OwnDeployIsTold(stripe: string -> int, s: State, t: Thread, throws: bool, h: Story)
    requires StoryOk(s, t, h) && t in s.callers && HoldsMaster(s.callers[t])
    ensures StoryOk(Deployed(stripe, s, t, throws), t, Continued(s, Advance(t, throws), t, h))
  {}

  /** The master lock keeps other callers from the preview of one that is about to look it up. */
  lemma OthersLeaveTheStory(stripe: string -> int, s: State, u: Thread, throws: bool, t: Thread, h: Story)
    requires LocksAgree(stripe, s) && StoryOk(s, t, h) && u in s.callers && u != t
    ensures StoryOk(Advanced(stripe, s, u, throws), t, Continued(s, Advance(u, throws), t, h))
  {
    assert LockOk(stripe, s, u, s.callers[u]);
    AdvanceIsLocal(stripe, s, u, throws);
    if t in s.callers {
      assert LockOk(stripe, s, t, s.callers[t]);
    }
  }

  /** So does it keep a refresh from it; a removal does not ask for that lock. */
  lemma EnvironmentIsTold(stripe: string -> int, s: State, a: Action, t: Thread, h: Story)
    requires LocksAgree(stripe, s) && StoryOk(s, t, h) && !a.Advance?
    ensures StoryOk(Step(stripe, s, a), t, Continued(s, a, t, h))
  {
    if t in s.callers {
      assert LockOk(stripe, s, t, s.callers[t]);
    }
  }

  lemma StepIsTold(stripe: string -> int, s: State, a: Action, t: Thread, h: Story)
    requires LocksAgree(stripe, s) && StoryOk(s, t, h)
    ensures StoryOk(Step(stripe, s, a), t, Continued(s, a, t, h))
  {
    if !a.Advance? {
      EnvironmentIsTold(stripe, s, a, t, h);
    } else if a.t in s.callers {
      if a.t != t {
        OthersLeaveTheStory(stripe, s, a.t, a.throws, t, h);
      } else if !HoldsLock(s.callers[t]) {
        OwnAskIsTold(stripe, s, t, a.throws, h);
      } else if !HoldsMaster(s.callers[t]) {
        OwnPrepareIsTold(stripe, s, t, a.throws, h);
      } else {
        OwnDeployIsTold(stripe, s, t, a.throws, h);
      }
    }
  }

  lemma {:induction false} StoryOverRuns(stripe: string -> int, actions: seq<Action>, t: Thread)
    ensures StoryOk(Run(stripe, Init, actions), t, Told(stripe, actions, t))
  {
    if actions != [] {
      var front := actions[..|actions| - 1];
      StoryOverRuns(stripe, front, t);
      InvOverRuns(stripe, front);
      StepIsTold(stripe, Run(stripe, Init, front), actions[|actions| - 1], t, Told(stripe, front, t));
    }
  }

  /** In every interleaving, a request that comes upon a preview of the version it read, before or under the
      lock, deploys nothing and answers with that preview.  Any other request deploys one, labelled with that
      version and built from the views of the moment, and answers with it; and it answers nothing if and only
      if somebody removed the preview between its deployment and its look-up. */
  lemma TheAnswer(stripe: string -> int, actions: seq<Action>, t: Thread)
    requires var s := Run(stripe, Init, actions); t in s.callers && s.callers[t].Returned?
    ensures var c, h := Run(stripe, Init, actions).callers[t], Told(stripe, actions, t);
            && h.read == Some(c.v)
            && (h.seen.Some? <==> h.own.None?)
            && (h.seen.Some? ==> c.result == h.seen)
            && (h.own.Some? && !h.removed ==> c.result == h.own)
            && (c.result.None? <==> h.removed)
  {
    StoryOverRuns(stripe, actions, t);
  }

  /** And a request fails if and only if its virtualization is not there, or building or deploying throws. */
  lemma TheFailure(stripe: string -> int, actions: seq<Action>, t: Thread)
    requires t in Run(stripe, Init, actions).callers
    ensures Run(stripe, Init, actions).callers[t].Failed? <==> Told(stripe, actions, t).broken
  {
    StoryOverRuns(stripe, actions, t);
  }

  /** A deployment that throws leaves no preview behind, whatever was deployed before. */
  lemma FailedDeploymentLeavesNone(stripe: string -> int, actions: seq<Action>, t: Thread)
    requires var s := Run(stripe, Init, actions); t in s.callers && s.callers[t].Putting?
    ensures var s := Run(stripe, Init, actions);
            var s' := Step(stripe, s, Advance(t, true));
            t in s'.callers && s'.callers[t] == Failed(s.callers[t].dv) && s.callers[t].dv !in s'.previews
  {
    StoryOverRuns(stripe, actions, t);
  }

  /** While a request deploys, from undeploying to looking up, nobody redeploys the master, and nobody else deploys
      a preview or takes one away, but for removals. */
  lemma MasterLockProtects(stripe: string -> int, actions: seq<Action>, t: Thread, a: Action, dv: string)
    requires var s := Run(stripe, Init, actions);
             t in s.callers && HoldsMaster(s.callers[t]) && !(a.Advance? && a.t == t)
    ensures var s := Run(stripe, Init, actions);
            var s' := Step(stripe, s, a);
            && s'.epoch == s.epoch && s'.callers.Keys >= s.callers.Keys && s'.callers[t] == s.callers[t]
            && (dv in s'.previews ==> dv in s.previews && s'.previews[dv] == s.previews[dv])
            && (dv in s.previews && a != Remove(dv) ==> dv in s'.previews)
  {
    var s := Run(stripe, Init, actions);
    InvOverRuns(stripe, actions);
    assert LockOk(stripe, s, t, s.callers[t]);
    if a.Advance? && a.t in s.callers {
      assert LockOk(stripe, s, a.t, s.callers[a.t]);
      AdvanceIsLocal(stripe, s, a.t, a.throws);
    }
  }

  // ---------------------------------------------------------------- no edit is missed

  /** How often `dv` was edited since it was created. */
  function Edits(actions: seq<Action>, dv: string): Option<nat> {
    if actions == [] then None
    else
      var before, a := Edits(actions[..|actions| - 1], dv), actions[|actions| - 1];
      if before.None? then (if a == Create(dv) then Some(0) else None)
      else if a == Edit(dv) then Some(before.value + 1)
      else before
  }

  function VersionOf(s: State, dv: string): Option<nat> { if dv in s.versions then Some(s.versions[dv]) else None }

  lemma {:induction false} VersionsCountEdits(stripe: string -> int, actions: seq<Action>, dv: string)
    ensures VersionOf(Run(stripe, Init, actions), dv) == Edits(actions, dv)
  {
    if actions != [] {
      var front, a := actions[..|actions| - 1], actions[|actions| - 1];
      VersionsCountEdits(stripe, front, dv);
      if a.Advance? && a.t in Run(stripe, Init, front).callers {
        InvOverRuns(stripe, front);
        AdvanceIsLocal(stripe, Run(stripe, Init, front), a.t, a.throws);
      }
    }
  }

  /** The edits of its virtualization that came before a request. */
  function EditsAtCall(stripe: string -> int, actions: seq<Action>, t: Thread): nat {
    if actions == [] then 0
    else
      var front, a := actions[..|actions| - 1], actions[|actions| - 1];
      if a.Call? && a.t == t && t !in Run(stripe, Init, front).callers
      then var n := Edits(front, a.dv); if n.Some? then n.value else 0
      else EditsAtCall(stripe, front, t)
  }

  /** A request that came after `n` edits has read no earlier version. */
  predicate NoOlder(s: State, t: Thread, n: nat) {
    t in s.callers ==>
      var c := s.callers[t];
      && (n > 0 ==> c.dv in s.versions && s.versions[c.dv] >= n)
      && (!c.Starting? && !c.Failed? ==> c.v >= n)
  }

  lemma OwnStepNoOlder(stripe: string -> int, s: State, t: Thread, throws: bool, n: nat)
    requires t in s.callers && NoOlder(s, t, n)
    ensures NoOlder(Advanced(stripe, s, t, throws), t, n)
  {}

  lemma StepNoOlder(stripe: string -> int, s: State, a: Action, t: Thread, n: nat)
    requires LocksAgree(stripe, s) && t in s.callers && NoOlder(s, t, n)
    ensures NoOlder(Step(stripe, s, a), t, n)
  {
    if a.Advance? && a.t in s.callers {
      if a.t == t {
        OwnStepNoOlder(stripe, s, t, a.throws, n);
      } else {
        assert LockOk(stripe, s, a.t, s.callers[a.t]);
        AdvanceIsLocal(stripe, s, a.t, a.throws);
      }
    }
  }

  lemma {:induction false} NoOlderOverRuns(stripe: string -> int, actions: seq<Action>, t: Thread)
    ensures NoOlder(Run(stripe, Init, actions), t, EditsAtCall(stripe, actions, t))
  {
    if actions != [] {
      var front, a := actions[..|actions| - 1], actions[|actions| - 1];
      var s := Run(stripe, Init, front);
      InvOverRuns(stripe, front);
      NoOlderOverRuns(stripe, front, t);
      if t in s.callers {
        StepNoOlder(stripe, s, a, t, EditsAtCall(stripe, front, t));
      } else if a.Call? && a.t == t {
        VersionsCountEdits(stripe, front, a.dv);
      } else if a.Advance? && a.t in s.callers {
        AdvanceIsLocal(stripe, s, a.t, a.throws);
      }
    }
  }

  /** In every interleaving, what a request returns was built from views that show every edit made before the
      request came in, and says so by its label. */
  lemma NoEditIsMissed(stripe: string -> int, actions: seq<Action>, t: Thread)
    requires var s := Run(stripe, Init, actions);
             t in s.callers && s.callers[t].Returned? && s.callers[t].result.Some?
    ensures var p, n := Run(stripe, Init, actions).callers[t].result.value, EditsAtCall(stripe, actions, t);
            p.version >= n && p.content >= n
  {
    InvOverRuns(stripe, actions);
    NoOlderOverRuns(stripe, actions, t);
  }

  // ---------------------------------------------------------------- nobody waits for ever

  predicate Held(stripe: string -> int, s: State, k: int)
    requires k in s.locks
  {
    s.locks[k] in s.callers && HoldsLock(s.callers[s.locks[k]]) && stripe(s.callers[s.locks[k]].dv) == k
  }

  /** Every lock has a holder at work that means to hold it. */
  ghost predicate NoLeaks(stripe: string -> int, s: State) {
    && (forall k | k in s.locks :: Held(stripe, s, k))
    && (s.master.Some? ==> s.master.value in s.callers && HoldsMaster(s.callers[s.master.value]))
  }

  lemma OwnAskLeaksNothing(stripe: string -> int, s: State, t: Thread)
    requires NoLeaks(stripe, s) && t in s.callers && !HoldsLock(s.callers[t])
    ensures NoLeaks(stripe, Asked(stripe, s, t))
  {}

  lemma OwnPrepareLeaksNothing(stripe: string -> int, s: State, t: Thread, throws: bool)
    requires NoLeaks(stripe, s) && t in s.callers && HoldsLock(s.callers[t]) && !HoldsMaster(s.callers[t])
    ensures NoLeaks(stripe, Prepared(stripe, s, t, throws))
  {}

  lemma OwnDeployLeaksNothing(stripe: string -> int, s: State, t: Thread, throws: bool)
    requires NoLeaks(stripe, s) && LocksAgree(stripe, s) && t in s.callers && HoldsMaster(s.callers[t])
    ensures NoLeaks(stripe, Deployed(stripe, s, t, throws))
  {
    assert LockOk(stripe, s, t, s.callers[t]);
  }

  lemma StepLeaksNothing(stripe: string -> int, s: State, a: Action)
    requires NoLeaks(stripe, s) && LocksAgree(stripe, s)
    ensures NoLeaks(stripe, Step(stripe, s, a))
  {
    if a.Advance? && a.t in s.callers {
      if HoldsMaster(s.callers[a.t]) {
        OwnDeployLeaksNothing(stripe, s, a.t, a.throws);
      } else if HoldsLock(s.callers[a.t]) {
        OwnPrepareLeaksNothing(stripe, s, a.t, a.throws);
      } else {
        OwnAskLeaksNothing(stripe, s, a.t);
      }
    } else if a.Call? && a.t !in s.callers {
      assert forall k | k in s.locks :: Held(stripe, s, k) && s.locks[k] != a.t;
    } else {
      var s' := Step(stripe, s, a);
      assert s'.callers == s.callers && s'.locks == s.locks && s'.master == s.master;
      assert forall k | k in s.locks :: Held(stripe, s, k);
    }
  }

  lemma {:induction false} NoLeaksOverRuns(stripe: string -> int, actions: seq<Action>)
    ensures NoLeaks(stripe, Run(stripe, Init, actions))
  {
    if actions != [] {
      var front, a := actions[..|actions| - 1], actions[|actions| - 1];
      var s := Run(stripe, Init, front);
      InvOverRuns(stripe, front);
      NoLeaksOverRuns(stripe, front);
      StepLeaksNothing(stripe, s, a);
    }
  }

  /** How many steps of its own a request has ahead of it, at the most. */
  function Ahead(c: Caller): nat {
    match c
    case Starting(_) => 10
    case Looking(_, _) => 9
    case Waiting(_, _) => 8
    case Checking(_, _) => 7
    case Building(_, _) => 6
    case Ready(_, _, _) => 5
    case Clearing(_, _, _) => 4
    case Putting(_, _, _) => 3
    case Fetching(_, _) => 2
    case Unlocking(_, _, _) => 1
    case Returned(_, _, _) => 0
    case Failed(_) => 0
  }

  /** The thread can move, and is one step closer to its end for it. */
  predicate Moves(stripe: string -> int, s: State, t: Thread) {
    t in s.callers && forall throws: bool ::
      var s' := Advanced(stripe, s, t, throws);
      t in s'.callers && Ahead(s'.callers[t]) < Ahead(s.callers[t])
  }

  lemma FreeMoves(stripe: string -> int, s: State, t: Thread)
    requires t in s.callers && !HoldsLock(s.callers[t]) && !s.callers[t].Returned? && !s.callers[t].Failed?
    requires s.callers[t].Waiting? ==> stripe(s.callers[t].dv) !in s.locks
    ensures Moves(stripe, s, t)
  {}

  lemma LockedMoves(stripe: string -> int, s: State, t: Thread)
    requires t in s.callers && HoldsLock(s.callers[t]) && !HoldsMaster(s.callers[t])
    requires s.callers[t].Ready? ==> s.master.None?
    ensures Moves(stripe, s, t)
  {}

  lemma MasterMoves(stripe: string -> int, s: State, t: Thread)
    requires t in s.callers && HoldsMaster(s.callers[t])
    ensures Moves(stripe, s, t)
  {}

  lemma SomebodyMoves(stripe: string -> int, s: State, t: Thread)
    requires NoLeaks(stripe, s)
    requires t in s.callers && !s.callers[t].Returned? && !s.callers[t].Failed?
    ensures Moves(stripe, s, Mover(stripe, s, t))
  {
    var c, u := s.callers[t], Mover(stripe, s, t);
    if c.Waiting? && stripe(c.dv) in s.locks { assert Held(stripe, s, stripe(c.dv)); }
    assert u in s.callers;
    if HoldsMaster(s.callers[u]) {
      MasterMoves(stripe, s, u);
    } else if HoldsLock(s.callers[u]) {
      LockedMoves(stripe, s, u);
    } else {
      FreeMoves(stripe, s, u);
    }
  }

  /** The thread a request waits for: itself, the holder of its stripe lock, or the holder of the master lock. */
  function Mover(stripe: string -> int, s: State, t: Thread): Thread
    requires t in s.callers
  {
    var u := if s.callers[t].Waiting? && stripe(s.callers[t].dv) in s.locks then s.locks[stripe(s.callers[t].dv)] else t;
    if u in s.callers && s.callers[u].Ready? && s.master.Some? then s.master.value else u
  }

  /** In every interleaving, whenever a request has not ended, some request can take a step towards its end;
      so the two kinds of locks never deadlock, and no lock outlives the request that took it. */
  lemma NoDeadlock(stripe: string -> int, actions: seq<Action>, t: Thread)
    requires var s := Run(stripe, Init, actions);
             t in s.callers && !s.callers[t].Returned? && !s.callers[t].Failed?
    ensures var s := Run(stripe, Init, actions);
            Moves(stripe, s, Mover(stripe, s, t))
  {
    NoLeaksOverRuns(stripe, actions);
    SomebodyMoves(stripe, Run(stripe, Init, actions), t);
  }

  ghost predicate AllEnded(s: State) { forall t | t in s.callers :: s.callers[t].Returned? || s.callers[t].Failed? }

  lemma NobodyHolds(stripe: string -> int, s: State, k: int)
    requires NoLeaks(stripe, s) && AllEnded(s)
    ensures k !in s.locks
  {
    assert k in s.locks ==> Held(stripe, s, k);
  }

  /** Once every request has ended, all locks are free, whether the requests returned or failed. */
  lemma LocksAreReturned(stripe: string -> int, actions: seq<Action>)
    requires AllEnded(Run(stripe, Init, actions))
    ensures Run(stripe, Init, actions).locks == map[] && Run(stripe, Init, actions).master == None
  {
    var s := Run(stripe, Init, actions);
    NoLeaksOverRuns(stripe, actions);
    forall k ensures k !in s.locks { NobodyHolds(stripe, s, k); }
    assert s.locks == map[];
  }
}
