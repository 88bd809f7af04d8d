/** Which requested deletions take effect: the last word about a job decides. */
module BuildJobDeletions {
  import opened BuildJobs
  import opened BuildJobTheorems
  import opened BuildJobRaces

  // ---------------------------------------------------------------- the last word

  /** The writes that settle a job's status for a while. */
  datatype Word = NoWord | ByDeletion | ByMark | ByResubmission | ByConfiguration | ByPass

  /** The word that a step speaks about a job: the end of a deletion, the mark of a request, the end of the job's
      configuration, or the write of a pass.  A failing deletion speaks only when it ends. */
  function SpokenWord(s: State, a: Action, id: JobId): Word {
    match a
    case DeletionEnds(task) => if task in s.deletions && s.deletions[task] == id then ByDeletion else NoWord
    case MarkDeleted(request) =>
      if request in s.requests && s.requests[request].Marking? && s.requests[request].job == id then ByMark else NoWord
    case Configured(i, _) => if i == id && id in s.configuring then ByConfiguration else NoWord
    case WriteStatus =>
      if s.monitor.Writing? && s.monitor.job == id then
        if s.monitor.effect.status.DeleteSubmitted? then ByResubmission else ByPass
      else NoWord
    case _ => NoWord
  }

  function NewWord(s: State, a: Action, id: JobId, word: Word): Word {
    var spoken := SpokenWord(s, a, id);
    if spoken.NoWord? then word else spoken
  }

  /** The last word of a run about a job. */
  function LastWord(actions: seq<Action>, id: JobId): Word {
    if actions == [] then NoWord
    else
      var n := |actions| - 1;
      NewWord(Before(actions, n), actions[n], id, LastWord(actions[..n], id))
  }

  /** A deletion of the job is with the pool. */
  ghost predicate BeingDeleted(s: State, id: JobId) { exists t | t in s.deletions :: s.deletions[t] == id }

  predicate IsDone(s: State, id: JobId) { id in s.jobs && s.jobs[id].status.DeleteDone? }

  /** The statuses that a word leaves behind. */
  predicate Matches(job: Job, word: Word) {
    match word
    case NoWord => !job.fetched && job.status.Submitted?
    case ByDeletion => job.status.DeleteDone?
    case ByMark => job.status.DeleteSubmitted?
    case ByResubmission => job.status.DeleteSubmitted?
    case ByConfiguration => job.status.Building? || job.status.Failed?
    case ByPass =>
      job.status.Configuring? || job.status.Deploying? || job.status.Running? || job.status.Failed? || job.status.Cancelled?
  }

  /** With no deletion at work, the status of a job is that of the last word about it. */
  ghost predicate WordOk(s: State, id: JobId, word: Word) {
    if id in s.jobs then
      && (s.jobs[id].status.DeleteRequeue? ==> BeingDeleted(s, id))
      && (BeingDeleted(s, id) || Matches(s.jobs[id], word))
    else word.NoWord?
  }

  /** Steps that leave the status of the job and its deletions alone. */
  lemma WordStays(s: State, s': State, id: JobId, word: Word)
    requires WordOk(s, id, word) && id in s.jobs && id in s'.jobs
    requires s'.jobs[id].status == s.jobs[id].status && s'.jobs[id].fetched == s.jobs[id].fetched
    requires BeingDeleted(s, id) ==> BeingDeleted(s', id)
    ensures WordOk(s', id, word)
  {}

  lemma DeletionsGrow(s: State, s': State, id: JobId)
    requires BeingDeleted(s, id) && forall t | t in s.deletions :: t in s'.deletions && s'.deletions[t] == s.deletions[t]
    ensures BeingDeleted(s', id)
  {
    var t :| t in s.deletions && s.deletions[t] == id;
    assert t in s'.deletions && s'.deletions[t] == id;
  }

  /** A monitor step other than a write. */
  predicate IsSilentPass(a: Action) {
    a.BeginPass? || a.Interrupt? || a.Check? || a.Fetch? || a.Recheck? || a.Close? || a.Leave?
  }

  lemma SilentPassesKeepStatus(s: State, a: Action, id: JobId)
    requires Enabled(s, a) && IsSilentPass(a)
    ensures var s' := Step(s, a);
            && s'.jobs.Keys == s.jobs.Keys
            && (id in s.jobs ==> s'.jobs[id].status == s.jobs[id].status && s'.jobs[id].fetched == s.jobs[id].fetched)
            && (forall t | t in s.deletions :: t in s'.deletions && s'.deletions[t] == s.deletions[t])
  {
    match a
    case Recheck(_, _, _) =>
    case Close =>
    case _ =>
  }

  lemma WordThroughPass(s: State, a: Action, id: JobId, word: Word)
    requires Enabled(s, a) && IsSilentPass(a) && WordOk(s, id, word)
    ensures WordOk(Step(s, a), id, word)
  {
    SilentPassesKeepStatus(s, a, id);
    if BeingDeleted(s, id) { DeletionsGrow(s, Step(s, a), id); }
  }

  lemma WordThroughWrite(s: State, id: JobId, word: Word)
    requires Inv(s) && WordOk(s, id, word)
    ensures WordOk(WroteStatus(s), id, NewWord(s, WriteStatus, id, word))
  {
    if s.monitor.Writing? && s.monitor.job == id {
      assert JobOk(s.jobs[id], id in s.configuring, PlaceOf(s, id));
    }
  }

  lemma WordThroughLook(s: State, a: Action, id: JobId, word: Word)
    requires Enabled(s, a) && id in s.jobs && WordOk(s, id, word) && (a.RequestDelete? || a.LookAgain?)
    ensures WordOk(Step(s, a), id, word)
  {
    if BeingDeleted(s, id) { DeletionsGrow(s, Step(s, a), id); }
    WordStays(s, Step(s, a), id, word);
  }

  /** A job that a second look makes has its deletion with the pool. */
  lemma WordOfFound(s: State, a: Action, id: JobId)
    requires id !in s.jobs && (a.RequestDelete? || a.LookAgain?)
    ensures WordOk(Step(s, a), id, NoWord)
  {
    if id in Step(s, a).jobs { assert a.task in Step(s, a).deletions; }
  }

  lemma WordThroughRequest(s: State, a: Action, id: JobId, word: Word)
    requires Inv(s) && WordOk(s, id, word) && (a.MarkDeleted? || a.QueueRunner?)
    ensures WordOk(Step(s, a), id, NewWord(s, a, id, word))
  {
    assert Step(s, a).deletions == s.deletions;
  }

  lemma WordThroughFailure(s: State, task: nat, id: JobId, word: Word)
    requires WordOk(s, id, word)
    ensures WordOk(DeletionFailed(s, task), id, word)
  {
    assert DeletionFailed(s, task).deletions == s.deletions;
  }

  lemma WordThroughEnd(s: State, task: nat, id: JobId, word: Word)
    requires JobsOk(s) && WordOk(s, id, word)
    ensures WordOk(DeletionEnded(s, task), id, NewWord(s, DeletionEnds(task), id, word))
  {
    var s' := DeletionEnded(s, task);
    if task in s.deletions {
      forall t | t in s.deletions && t != task ensures t in s'.deletions && s'.deletions[t] == s.deletions[t] {}
    }
  }

  lemma WordThroughName(s: State, i: JobId, build: string, id: JobId, word: Word)
    requires WordOk(s, id, word)
    ensures WordOk(NamedBuild(s, i, build), id, word)
  {
    assert NamedBuild(s, i, build).deletions == s.deletions;
  }

  lemma WordThroughConfiguration(s: State, i: JobId, succeeds: bool, id: JobId, word: Word)
    requires JobsOk(s) && WordOk(s, id, word)
    ensures WordOk(ConfigurationEnded(s, i, succeeds), id, NewWord(s, Configured(i, succeeds), id, word))
  {
    assert ConfigurationEnded(s, i, succeeds).deletions == s.deletions;
  }

  lemma WordStep(s: State, a: Action, id: JobId, word: Word)
    requires Inv(s) && Enabled(s, a) && WordOk(s, id, word)
    ensures WordOk(Step(s, a), id, NewWord(s, a, id, word))
  {
    match a
    case Publish(_, _) =>
    case RequestDelete(_, _, _) => if id in s.jobs { WordThroughLook(s, a, id, word); } else { WordOfFound(s, a, id); }
    case LookAgain(_, _, _, _) => if id in s.jobs { WordThroughLook(s, a, id, word); } else { WordOfFound(s, a, id); }
    case MarkDeleted(_) => WordThroughRequest(s, a, id, word);
    case QueueRunner(_) => WordThroughRequest(s, a, id, word);
    case DeletionFails(task) => WordThroughFailure(s, task, id, word);
    case DeletionEnds(task) => WordThroughEnd(s, task, id, word);
    case NameBuild(i, build) => WordThroughName(s, i, build, id, word);
    case Configured(i, succeeds) => WordThroughConfiguration(s, i, succeeds, id, word);
    case WriteStatus => WordThroughWrite(s, id, word);
    case _ => WordThroughPass(s, a, id, word);
  }

  lemma {:induction false} WordOverRuns(actions: seq<Action>, id: JobId)
    requires IsRun(Init(), actions)
    ensures WordOk(Run(Init(), actions), id, LastWord(actions, id))
  {
    if actions != [] {
      var n := |actions| - 1;
      WordOverRuns(actions[..n], id);
      InvOverRuns(actions[..n]);
      WordStep(Before(actions, n), actions[n], id, LastWord(actions[..n], id));
    }
  }

  /** In every reachable state without a deletion of the job at work: the job is done being deleted if and only if
      the end of a deletion was the last word about it, and it still waits for its deletion if and only if that was
      the mark of a request or of a resubmission. */
  lemma LastWordDecides(actions: seq<Action>, id: JobId)
    requires IsRun(Init(), actions) && id in Run(Init(), actions).jobs && !BeingDeleted(Run(Init(), actions), id)
    ensures IsDone(Run(Init(), actions), id) <==> LastWord(actions, id).ByDeletion?
    ensures Run(Init(), actions).jobs[id].status.DeleteSubmitted? <==>
            LastWord(actions, id).ByMark? || LastWord(actions, id).ByResubmission?
  {
    WordOverRuns(actions, id);
  }

  // ---------------------------------------------------------------- what follows

  /** A deletion request that takes the job, at its first look or at its second, submits another deletion of it. */
  predicate Retries(s: State, a: Action, id: JobId) {
    (a.RequestDelete? && a.name in s.activeJobs && s.activeJobs[a.name] == id) || Races(s, a, id)
  }

  predicate NeverRetries(s: State, actions: seq<Action>, id: JobId) {
    actions == [] ||
    var n := |actions| - 1;
    NeverRetries(s, actions[..n], id) && !Retries(Run(s, actions[..n]), actions[n], id)
  }

  /** Some continuation without another request brings the deletion to its end. */
  ghost predicate CanStillEnd(s: State, id: JobId) {
    exists more :: IsRun(s, more) && NeverRetries(s, more, id) && IsDone(Run(s, more), id)
  }

  /** Nothing will end a deletion of the job any more. */
  ghost predicate PastDeletion(s: State, id: JobId) {
    id in s.jobs && !BeingDeleted(s, id) && !s.jobs[id].status.DeleteRequeue?
  }

  lemma PastThroughPass(s: State, a: Action, id: JobId)
    requires PlacesOk(s) && Enabled(s, a) && PastDeletion(s, id) && IsSilentPass(a)
    ensures PastDeletion(Step(s, a), id) && Step(s, a).jobs[id].status == s.jobs[id].status
  {
    SilentPassesKeepStatus(s, a, id);
    var s' := Step(s, a);
    if a.Check? {
      forall t | t in s'.deletions ensures s'.deletions[t] != id {}
    } else {
      assert s'.deletions == s.deletions;
    }
  }

  lemma PastThroughWrite(s: State, id: JobId)
    requires Inv(s) && PastDeletion(s, id)
    ensures PastDeletion(WroteStatus(s), id) && (IsDone(WroteStatus(s), id) ==> IsDone(s, id))
  {
    if s.monitor.Writing? && s.monitor.job == id {
      assert JobOk(s.jobs[id], id in s.configuring, PlaceOf(s, id));
    }
    assert WroteStatus(s).deletions == s.deletions;
  }

  lemma PastThroughLook(s: State, a: Action, id: JobId)
    requires Enabled(s, a) && PastDeletion(s, id) && (a.RequestDelete? || a.LookAgain?) && !Retries(s, a, id)
    ensures PastDeletion(Step(s, a), id) && Step(s, a).jobs[id] == s.jobs[id]
  {
    var s' := Step(s, a);
    forall t | t in s'.deletions ensures s'.deletions[t] != id {}
  }

  lemma PastThroughRequest(s: State, a: Action, id: JobId)
    requires PastDeletion(s, id) && (a.MarkDeleted? || a.QueueRunner?)
    ensures PastDeletion(Step(s, a), id) && (IsDone(Step(s, a), id) ==> IsDone(s, id))
  {
    assert Step(s, a).deletions == s.deletions;
  }

  lemma PastThroughDeletion(s: State, a: Action, id: JobId)
    requires PastDeletion(s, id) && (a.DeletionFails? || a.DeletionEnds?)
    ensures PastDeletion(Step(s, a), id) && Step(s, a).jobs[id] == s.jobs[id]
  {
    forall t | t in Step(s, a).deletions ensures Step(s, a).deletions[t] != id {}
  }

  lemma PastThroughOthers(s: State, a: Action, id: JobId)
    requires Enabled(s, a) && PastDeletion(s, id) && (a.Publish? || a.NameBuild? || a.Configured?)
    ensures PastDeletion(Step(s, a), id) && (IsDone(Step(s, a), id) ==> IsDone(s, id))
  {
    assert Step(s, a).deletions == s.deletions;
  }

  /** Without another request a job past its deletion is not done unless it was. */
  lemma PastDeletionStays(s: State, a: Action, id: JobId)
    requires Inv(s) && Enabled(s, a) && PastDeletion(s, id) && !Retries(s, a, id)
    ensures PastDeletion(Step(s, a), id)
    ensures IsDone(Step(s, a), id) ==> IsDone(s, id)
  {
    match a
    case Publish(_, _) => PastThroughOthers(s, a, id);
    case NameBuild(_, _) => PastThroughOthers(s, a, id);
    case Configured(_, _) => PastThroughOthers(s, a, id);
    case RequestDelete(_, _, _) => PastThroughLook(s, a, id);
    case LookAgain(_, _, _, _) => PastThroughLook(s, a, id);
    case MarkDeleted(_) => PastThroughRequest(s, a, id);
    case QueueRunner(_) => PastThroughRequest(s, a, id);
    case DeletionFails(_) => PastThroughDeletion(s, a, id);
    case DeletionEnds(_) => PastThroughDeletion(s, a, id);
    case WriteStatus => PastThroughWrite(s, id);
    case _ => PastThroughPass(s, a, id);
  }

  lemma {:induction false} NeverDone(s: State, more: seq<Action>, id: JobId)
    requires Inv(s) && IsRun(s, more) && NeverRetries(s, more, id) && PastDeletion(s, id)
    ensures PastDeletion(Run(s, more), id) && (IsDone(Run(s, more), id) ==> IsDone(s, id))
  {
    if more != [] {
      var n := |more| - 1;
      NeverDone(s, more[..n], id);
      InvFrom(s, more[..n]);
      PastDeletionStays(Run(s, more[..n]), more[n], id);
    }
  }

  lemma {:induction false} OneStep(s: State, a: Action, id: JobId)
    ensures Run(s, [a]) == Step(s, a)
    ensures IsRun(s, [a]) <==> Enabled(s, a)
    ensures NeverRetries(s, [a], id) <==> !Retries(s, a, id)
  {
    assert [a][..0] == [];
  }

  lemma EndsNow(s: State, id: JobId)
    requires JobsOk(s) && BeingDeleted(s, id)
    ensures CanStillEnd(s, id)
  {
    var t :| t in s.deletions && s.deletions[t] == id;
    var a := DeletionEnds(t);
    assert IsDone(Step(s, a), id) && Enabled(s, a);
    OneStep(s, a, id);
    EndsBy(s, [a], id);
  }

  lemma EndsBy(s: State, more: seq<Action>, id: JobId)
    requires IsRun(s, more) && NeverRetries(s, more, id) && IsDone(Run(s, more), id)
    ensures CanStillEnd(s, id)
  {}

  /** In every reachable state, a job can still become done without another request, if and only if it is done or a
      deletion of it is with the pool. */
  lemma DeletionsEndInThePool(actions: seq<Action>, id: JobId)
    requires IsRun(Init(), actions) && id in Run(Init(), actions).jobs
    ensures var s := Run(Init(), actions); CanStillEnd(s, id) <==> IsDone(s, id) || BeingDeleted(s, id)
  {
    var s := Run(Init(), actions);
    InvOverRuns(actions);
    WordOverRuns(actions, id);
    if IsDone(s, id) {
      EndsBy(s, [], id);
    } else if BeingDeleted(s, id) {
      EndsNow(s, id);
    } else if CanStillEnd(s, id) {
      var more :| IsRun(s, more) && NeverRetries(s, more, id) && IsDone(Run(s, more), id);
      NeverDone(s, more, id);
    }
  }

  lemma OtherWordsAreNotDone(s: State, a: Action, id: JobId)
    requires Inv(s) && !SpokenWord(s, a, id).NoWord? && !SpokenWord(s, a, id).ByDeletion?
    ensures var s' := Step(s, a);
            id in s'.jobs && !IsDone(s', id) && (BeingDeleted(s', id) <==> BeingDeleted(s, id))
  {
    if a.WriteStatus? {
      assert JobOk(s.jobs[id], id in s.configuring, PlaceOf(s, id));
    } else if a.MarkDeleted? {
      assert RequestOk(s, s.requests[a.request]);
    }
    assert Step(s, a).deletions == s.deletions;
  }

  /** Any other word about a job, the mark of its own request included, loses the deletion if and only if no deletion
      of it is with the pool at that time. */
  lemma LateWordLoses(actions: seq<Action>, a: Action, id: JobId)
    requires IsRun(Init(), actions) && Enabled(Run(Init(), actions), a)
    requires !SpokenWord(Run(Init(), actions), a, id).NoWord? && !SpokenWord(Run(Init(), actions), a, id).ByDeletion?
    ensures var s := Run(Init(), actions); CanStillEnd(Step(s, a), id) <==> BeingDeleted(s, id)
  {
    var s := Run(Init(), actions);
    var longer := actions + [a];
    assert longer[..|actions|] == actions;
    InvOverRuns(actions);
    OtherWordsAreNotDone(s, a, id);
    DeletionsEndInThePool(longer, id);
  }

  // ---------------------------------------------------------------- jobs at rest

  /** A pass over the job is past its first read, and no test ahead of it will stop it before it may write. */
  predicate MayWrite(s: State, id: JobId)
    requires id in s.jobs
  {
    var p := PlaceOf(s, id);
    p.Fetching? || p.Rechecking? || p.Writing? || (p.Checking? && !StopsAhead(s.jobs[id].status, p.at))
  }

  predicate StopsAhead(status: Status, at: nat) { (status.DeleteSubmitted? && at == 0) || (status.DeleteDone? && at <= 2) }

  /** A write of the job's status is outstanding. */
  ghost predicate Unsettled(s: State, id: JobId)
    requires id in s.jobs
  {
    || BeingDeleted(s, id)
    || (exists r | r in s.requests :: MarksLater(s.requests[r], id))
    || id in s.configuring
    || MayWrite(s, id)
  }

  predicate MarksLater(r: Request, id: JobId) { r.Marking? && r.job == id }

  /** A job is deleted, or marked for it, and nothing is outstanding that would write its status. */
  ghost predicate Resting(s: State, id: JobId) {
    id in s.jobs && (s.jobs[id].status.DeleteSubmitted? || s.jobs[id].status.DeleteDone?) && !Unsettled(s, id)
  }

  lemma RestingThroughPass(s: State, a: Action, id: JobId)
    requires PlacesOk(s) && Enabled(s, a) && Resting(s, id) && IsSilentPass(a)
    ensures Resting(Step(s, a), id) && Step(s, a).jobs[id].status == s.jobs[id].status
  {
    PastThroughPass(s, a, id);
    assert Step(s, a).requests == s.requests && Step(s, a).configuring == s.configuring;
    PlacesThroughPass(s, a, id);
  }

  /** A pass over a job at rest is stopped by a test. */
  lemma PlacesThroughPass(s: State, a: Action, id: JobId)
    requires PlacesOk(s) && Enabled(s, a) && IsSilentPass(a) && id in s.jobs
    requires (s.jobs[id].status.DeleteSubmitted? || s.jobs[id].status.DeleteDone?) && !MayWrite(s, id)
    requires id in Step(s, a).jobs && Step(s, a).jobs[id].status == s.jobs[id].status
    ensures !MayWrite(Step(s, a), id)
  {
    if a.BeginPass? && s.workQueue != [] { assert s.workQueue[0] in s.workQueue; }
  }

  lemma RestingThroughWrite(s: State, id: JobId)
    requires Inv(s) && Resting(s, id)
    ensures Resting(WroteStatus(s), id) && WroteStatus(s).jobs[id].status == s.jobs[id].status
  {
    assert WroteStatus(s).deletions == s.deletions && WroteStatus(s).requests == s.requests;
  }

  lemma RestingThroughLook(s: State, a: Action, id: JobId)
    requires Enabled(s, a) && Resting(s, id) && (a.RequestDelete? || a.LookAgain?) && !Retries(s, a, id)
    ensures Resting(Step(s, a), id) && Step(s, a).jobs[id] == s.jobs[id]
  {
    var s' := Step(s, a);
    PastThroughLook(s, a, id);
    forall r | r in s'.requests ensures !MarksLater(s'.requests[r], id) {
      if r in s.requests { assert !MarksLater(s.requests[r], id); }
    }
  }

  lemma RestingThroughRequest(s: State, a: Action, id: JobId)
    requires Resting(s, id) && (a.MarkDeleted? || a.QueueRunner?)
    ensures Resting(Step(s, a), id) && Step(s, a).jobs[id].status == s.jobs[id].status
  {
    PastThroughRequest(s, a, id);
    NoNewMark(s, a, id);
    if a.request in s.requests { assert !MarksLater(s.requests[a.request], id); }
    assert Step(s, a).monitor == s.monitor;
  }

  lemma NoNewMark(s: State, a: Action, id: JobId)
    requires (a.MarkDeleted? || a.QueueRunner?) && forall r | r in s.requests :: !MarksLater(s.requests[r], id)
    ensures forall r | r in Step(s, a).requests :: !MarksLater(Step(s, a).requests[r], id)
  {
    forall r | r in Step(s, a).requests ensures !MarksLater(Step(s, a).requests[r], id) {
      assert !MarksLater(s.requests[r], id);
    }
  }

  lemma RestingThroughDeletion(s: State, a: Action, id: JobId)
    requires Resting(s, id) && (a.DeletionFails? || a.DeletionEnds?)
    ensures Resting(Step(s, a), id) && Step(s, a).jobs[id] == s.jobs[id]
  {
    PastThroughDeletion(s, a, id);
  }

  lemma RestingThroughOthers(s: State, a: Action, id: JobId)
    requires Enabled(s, a) && Resting(s, id) && (a.Publish? || a.NameBuild? || a.Configured?)
    ensures Resting(Step(s, a), id) && Step(s, a).jobs[id] == s.jobs[id]
  {
    PastThroughOthers(s, a, id);
  }

  /** Until another request takes the very job, its status stays. */
  lemma RestingStays(s: State, a: Action, id: JobId)
    requires Inv(s) && Enabled(s, a) && Resting(s, id) && !Retries(s, a, id)
    ensures Resting(Step(s, a), id) && Step(s, a).jobs[id].status == s.jobs[id].status
  {
    match a
    case Publish(_, _) => RestingThroughOthers(s, a, id);
    case NameBuild(_, _) => RestingThroughOthers(s, a, id);
    case Configured(_, _) => RestingThroughOthers(s, a, id);
    case RequestDelete(_, _, _) => RestingThroughLook(s, a, id);
    case LookAgain(_, _, _, _) => RestingThroughLook(s, a, id);
    case MarkDeleted(_) => RestingThroughRequest(s, a, id);
    case QueueRunner(_) => RestingThroughRequest(s, a, id);
    case DeletionFails(_) => RestingThroughDeletion(s, a, id);
    case DeletionEnds(_) => RestingThroughDeletion(s, a, id);
    case WriteStatus => RestingThroughWrite(s, id);
    case _ => RestingThroughPass(s, a, id);
  }
}
