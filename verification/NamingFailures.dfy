/** When a call that has to name a connection loses its commits, and when it gives up. */
module NamingFailures {
  import opened CaseFolding
  import opened NameSuffix
  import opened Naming
  import opened NamingTheorems

  /** The name of the candidate is in the table: as that of a virtualization, or of another connection whose base is
      the same, ignoring case, and whose draw agrees modulo 2^25. */
  ghost predicate DrewATakenSuffix(t: Table, base: string, val: Int32) {
    || Upper(NameOf(base, Suffixed(val))) in t.virtualizations
    || exists id, b, w: Int32 :: id in t.rows && t.rows[id] == NameOf(b, Suffixed(w))
                                 && Upper(b) == Upper(base) && w % SUFFIXES == val % SUFFIXES
  }

  lemma SuffixedIsTaken(t: Table, base: string, val: Int32)
    requires TableOk(t)
    ensures Taken(t, Upper(NameOf(base, Suffixed(val)))) <==> DrewATakenSuffix(t, base, val)
  {
    var upper := Upper(NameOf(base, Suffixed(val)));
    if Taken(t, upper) && upper !in t.virtualizations {
      var id :| id in t.rows && Upper(t.rows[id]) == upper;
      var b, d :| |b| <= BASE_LENGTH && '_' !in b && t.rows[id] == NameOf(b, d);
      if d.Plain? {
        SuffixedNeverCollidesWithPlain(base, val, b);
      } else {
        SuffixedNamesCollide(b, d.val, base, val);
      }
    }
    if DrewATakenSuffix(t, base, val) && upper !in t.virtualizations {
      var id, b, w: Int32 :| id in t.rows && t.rows[id] == NameOf(b, Suffixed(w))
                             && Upper(b) == Upper(base) && w % SUFFIXES == val % SUFFIXES;
      SuffixedNamesCollide(b, w, base, val);
    }
  }

  // ---------------------------------------------------------------- one commit

  /** The table stands in the way of a commit: the connection has a row by now, or the candidate is in use. */
  ghost predicate Conflicts(t: Table, c: Call) {
    && c.phase.Saving?
    && (c.id in t.rows
        || match c.phase.candidate
           case Plain => Taken(t, Upper(c.base))
           case Suffixed(val) => DrewATakenSuffix(t, c.base, val))
  }

  /** A commit is lost if and only if the table at that moment stands in its way, to the row of the connection
      itself if there is one. */
  lemma CommitIsExact(t: Table, c: Call)
    requires TableOk(t)
    ensures var (u, d) := Commit(t, c);
            && (|d.lost| == |c.lost| + 1 <==> Conflicts(t, c)) && (|d.lost| == |c.lost| <==> !Conflicts(t, c))
            && (Conflicts(t, c) ==> u == t && (d.lost[|c.lost|].LostById? <==> c.id in t.rows))
            && (c.phase.Saving? ==> (d.phase.Named? <==> !Conflicts(t, c)))
  {
    if c.phase.Saving? && c.phase.candidate.Suffixed? {
      SuffixedIsTaken(t, c.base, c.phase.candidate.val);
    }
  }

  // ---------------------------------------------------------------- whole runs

  /** The step is a commit of call `k` that the table stands in the way of. */
  ghost predicate LosesCommit(s: State, a: Action, k: nat) {
    a == Save(k) && k in s.calls && Conflicts(s.table, s.calls[k])
  }

  /** The commits that call `k` has lost, each judged by the table at that moment. */
  ghost function LostCommits(s: State, actions: seq<Action>, k: nat): nat {
    if actions == [] then 0
    else
      var n := |actions| - 1;
      LostCommits(s, actions[..n], k) + if LosesCommit(Run(s, actions[..n]), actions[n], k) then 1 else 0
  }

  function Losses(s: State, k: nat): nat { if k in s.calls then |s.calls[k].lost| else 0 }

  lemma OthersLoseNothing(s: State, a: Action, k: nat)
    requires Enabled(s, a) && a != Save(k)
    ensures Losses(Step(s, a), k) == Losses(s, k)
  {}

  lemma LossStep(s: State, a: Action, k: nat)
    requires Inv(s) && Enabled(s, a)
    ensures Losses(Step(s, a), k) == Losses(s, k) + if LosesCommit(s, a, k) then 1 else 0
  {
    if a != Save(k) {
      OthersLoseNothing(s, a, k);
    } else if k in s.calls {
      CommitIsExact(s.table, s.calls[k]);
    }
  }

  lemma {:induction false} LossesAreCounted(reserved: set<string>, actions: seq<Action>, k: nat)
    requires IsRun(Init(reserved), actions)
    ensures LostCommits(Init(reserved), actions, k) == Losses(Run(Init(reserved), actions), k)
  {
    if actions != [] {
      var n := |actions| - 1;
      LossesAreCounted(reserved, actions[..n], k);
      InvOverRuns(reserved, actions[..n]);
      LossStep(Run(Init(reserved), actions[..n]), actions[n], k);
    }
  }

  /** A call gives up if and only if three of its commits met a conflict; it never meets more.  The first two were
      lost by name, the second of them and every later one by name with a suffix that the table already had. */
  lemma GivingUp(reserved: set<string>, actions: seq<Action>, k: nat)
    requires IsRun(Init(reserved), actions) && k in Run(Init(reserved), actions).calls
    ensures var s := Run(Init(reserved), actions);
            var c := s.calls[k];
            && LostCommits(Init(reserved), actions, k) <= 3
            && (c.phase.GaveUp? <==> LostCommits(Init(reserved), actions, k) == 3)
            && (c.phase.GaveUp? ==>
                  && |c.lost| == 3 && c.lost[0].LostByName?
                  && c.lost[1].LostByName? && c.lost[1].candidate.Suffixed?
                  && DrewATakenSuffix(s.table, c.base, c.lost[1].candidate.val)
                  && (if c.lost[2].LostById? then c.id in s.table.rows
                      else c.lost[2].candidate.Suffixed? && DrewATakenSuffix(s.table, c.base, c.lost[2].candidate.val)))
  {
    InvOverRuns(reserved, actions);
    LossesAreCounted(reserved, actions, k);
    var s := Run(Init(reserved), actions);
    var c := s.calls[k];
    assert CallOk(s, c);
    if c.phase.GaveUp? {
      SuffixedIsTaken(s.table, c.base, c.lost[1].candidate.val);
      if c.lost[2].LostByName? { SuffixedIsTaken(s.table, c.base, c.lost[2].candidate.val); }
    }
  }

  // ---------------------------------------------------------------- a call that gives up

  /** A run after which the table and call 0 look like this, and call numbers from `next` on are free. */
  ghost predicate Reaches(actions: seq<Action>, t: Table, c: Call, next: nat) {
    var s := Run(Init({}), actions);
    && IsRun(Init({}), actions) && s.table == t && s.reserved == {} && 0 in s.calls && s.calls[0] == c
    && 0 < next && forall k | k in s.calls :: k < next
  }

  lemma Extend(actions: seq<Action>, a: Action) returns (longer: seq<Action>)
    requires IsRun(Init({}), actions) && Enabled(Run(Init({}), actions), a)
    ensures IsRun(Init({}), longer) && Run(Init({}), longer) == Step(Run(Init({}), actions), a)
  {
    longer := actions + [a];
    assert longer[..|actions|] == actions;
  }

  /** The candidate that a choice makes now. */
  function Chosen(t: Table, base: string, val: Int32): Candidate {
    if Taken(t, Upper(base)) then Suffixed(val) else Plain
  }

  lemma Begins(id: string, name: string) returns (actions: seq<Action>)
    ensures Reaches(actions, Table(map[], {}), Started(id, name), 1)
  {
    actions := Extend([], Begin(0, id, name));
  }

  lemma Chooses(before: seq<Action>, t: Table, c: Call, next: nat, val: Int32) returns (actions: seq<Action>)
    requires Reaches(before, t, c, next) && c.phase.Reading? && c.id !in t.rows
    ensures Reaches(actions, t, c.(phase := Saving(Chosen(t, c.base, val))), next)
  {
    actions := Extend(before, Read(0));
    actions := Extend(actions, Choose(0, val));
  }

  lemma Saves(before: seq<Action>, t: Table, c: Call, next: nat) returns (actions: seq<Action>)
    requires Reaches(before, t, c, next) && c.phase.Saving? && c.id !in t.rows && Taken(t, Upper(NameOf(c.base, c.phase.candidate)))
    ensures Reaches(actions, t, Lose(c, LostByName(c.phase.candidate)), next)
  {
    actions := Extend(before, Save(0));
  }

  /** Another pod names another connection in between. */
  lemma RivalNames(before: seq<Action>, t: Table, c: Call, next: nat, id: string, name: string, val: Int32) returns (actions: seq<Action>)
    requires Reaches(before, t, c, next) && id !in t.rows
    requires !Taken(t, Upper(NameOf(Base(name), Chosen(t, Base(name), val))))
    ensures Reaches(actions, t.(rows := t.rows[id := NameOf(Base(name), Chosen(t, Base(name), val))]), c, next + 1)
  {
    actions := RivalChooses(before, t, c, next, id, name, val);
    actions := Extend(actions, Save(next));
  }

  lemma RivalChooses(before: seq<Action>, t: Table, c: Call, next: nat, id: string, name: string, val: Int32) returns (actions: seq<Action>)
    requires Reaches(before, t, c, next) && id !in t.rows
    ensures Reaches(actions, t, c, next + 1) && next in Run(Init({}), actions).calls
    ensures Run(Init({}), actions).calls[next] == Started(id, name).(phase := Saving(Chosen(t, Base(name), val)))
  {
    actions := Extend(before, Begin(next, id, name));
    actions := Extend(actions, Read(next));
    actions := Extend(actions, Choose(next, val));
  }

  /** It happens: while one pod names a connection, others give its name, and then the suffix that it draws twice, to
      two connections that share its name. */
  lemma ACallGivesUp(a: string, b: string, d: string, name: string, val: Int32) returns (actions: seq<Action>)
    requires a != b && a != d && b != d
    ensures IsRun(Init({}), actions)
    ensures var s := Run(Init({}), actions); 0 in s.calls && s.calls[0].id == a && s.calls[0].phase.GaveUp? && a !in s.table.rows
  {
    var base := Base(name);
    var t0, c := Table(map[], {}), Started(a, name);
    actions := Begins(a, name);
    actions := Chooses(actions, t0, c, 1, val);
    actions := RivalNames(actions, t0, c.(phase := Saving(Plain)), 1, b, name, val);
    var t1 := Table(map[b := base], {});
    assert Upper(t1.rows[b]) == Upper(base);
    actions := LosesAndChooses(actions, t1, c.(phase := Saving(Plain)), 2, val);
    var c1 := c.(lost := [LostByName(Plain)], phase := Saving(Suffixed(val)));
    SuffixedNeverCollidesWithPlain(base, val, base);
    actions := RivalNames(actions, t1, c1, 2, d, name, val);
    var t2 := Table(map[b := base, d := NameOf(base, Suffixed(val))], {});
    assert t1.rows[d := NameOf(base, Suffixed(val))] == t2.rows;
    assert Upper(t2.rows[d]) == Upper(NameOf(base, Suffixed(val))) && Upper(t2.rows[b]) == Upper(base);
    actions := LosesAndChooses(actions, t2, c1, 3, val);
    actions := Saves(actions, t2, c1.(lost := c1.lost + [LostByName(Suffixed(val))]), 3);
  }

  lemma LosesAndChooses(before: seq<Action>, t: Table, c: Call, next: nat, val: Int32) returns (actions: seq<Action>)
    requires Reaches(before, t, c, next) && c.phase.Saving? && c.id !in t.rows && |c.lost| < 2
    requires Taken(t, Upper(c.base)) && Taken(t, Upper(NameOf(c.base, c.phase.candidate)))
    ensures Reaches(actions, t, c.(lost := c.lost + [LostByName(c.phase.candidate)], phase := Saving(Suffixed(val))), next)
  {
    actions := Saves(before, t, c, next);
    actions := Chooses(actions, t, Lose(c, LostByName(c.phase.candidate)), next, val);
  }
}
