/** Racing pods agree on names, over all runs. */
module NamingTheorems {
  import opened CaseFolding
  import opened NameSuffix
  import opened Naming

  // ---------------------------------------------------------------- names

  lemma UpperOfConcat(s: string, t: string)
    ensures Upper(s + t) == Upper(s) + Upper(t)
  {
    var l, r := Upper(s + t), Upper(s) + Upper(t);
    forall i | 0 <= i < |l| ensures l[i] == r[i] {
      assert (s + t)[i] == if i < |s| then s[i] else t[i - |s|];
    }
  }

  lemma UpperOfSuffix(v: Int32, w: Int32)
    ensures Upper(Suffix(v)) == Upper(Suffix(w)) <==> Suffix(v) == Suffix(w)
  {
    var s, t := Suffix(v), Suffix(w);
    if Upper(s) == Upper(t) {
      forall i | 0 <= i < |s| ensures s[i] == t[i] {
        assert Upper(s)[i] == Upper(t)[i];
      }
    }
  }

  /** Two suffixed names collide, ignoring case, exactly when their bases do and the draws agree modulo 2^25. */
  lemma SuffixedNamesCollide(b: string, v: Int32, c: string, w: Int32)
    ensures Upper(NameOf(b, Suffixed(v))) == Upper(NameOf(c, Suffixed(w)))
            <==> Upper(b) == Upper(c) && v % SUFFIXES == w % SUFFIXES
  {
    var (s, t) := (Suffix(v), Suffix(w));
    UpperOfConcat(b + "_", s);
    UpperOfConcat(b, "_");
    UpperOfConcat(c + "_", t);
    UpperOfConcat(c, "_");
    UpperOfSuffix(v, w);
    SuffixesAgree(v, w);
    var x, y := Upper(b) + Upper("_"), Upper(c) + Upper("_");
    if x + Upper(s) == y + Upper(t) {
      assert x == (x + Upper(s))[..|x|] && y == (y + Upper(t))[..|x|];
      assert Upper(s) == (x + Upper(s))[|x|..] && Upper(t) == (y + Upper(t))[|x|..];
      assert Upper(b) == x[..|b|] && Upper(c) == y[..|b|];
    }
  }

  /** A suffixed name never collides with a plain one, which holds no underscore. */
  lemma SuffixedNeverCollidesWithPlain(b: string, v: Int32, c: string)
    requires '_' !in c
    ensures Upper(NameOf(b, Suffixed(v))) != Upper(c)
  {
    var name := NameOf(b, Suffixed(v));
    assert name[|b|] == '_';
    assert Upper(name)[|b|] == '_';
    if |c| > |b| { assert Upper(c)[|b|] == UpperChar(c[|b|]) && c[|b|] in c; }
  }

  /** No name is longer than the column, and every name but the suffix is free of problematic characters. */
  lemma NamesFit(name: string)
    requires Minted(name)
    ensures |name| <= MAXIMUM_LENGTH
  {
    var base, c :| |base| <= BASE_LENGTH && '_' !in base && name == NameOf(base, c);
    assert c.Suffixed? ==> |Suffix(c.val)| == SUFFIX_LENGTH;
  }

  // ---------------------------------------------------------------- preservation

  /** The table only grows: rows stay as they are. */
  predicate Grows(t: Table, u: Table) {
    t.virtualizations <= u.virtualizations && forall id | id in t.rows :: id in u.rows && u.rows[id] == t.rows[id]
  }

  lemma TakenStays(t: Table, u: Table, upper: string)
    requires Grows(t, u) && Taken(t, upper)
    ensures Taken(u, upper)
  {}

  lemma StepGrows(s: State, a: Action)
    ensures Grows(s.table, Step(s, a).table)
  {}

  lemma TableSurvives(s: State, a: Action)
    requires Inv(s)
    ensures TableOk(Step(s, a).table)
  {
    if a.Save? && a.call in s.calls && s.calls[a.call].phase.Saving? {
      var c := s.calls[a.call];
      assert Minted(NameOf(c.base, c.phase.candidate));
    }
  }

  /** Calls that do not step keep what holds of them while the table grows. */
  lemma CallSurvivesGrowth(s: State, s': State, c: Call)
    requires CallOk(s, c) && s'.reserved == s.reserved && Grows(s.table, s'.table)
    ensures CallOk(s', c)
  {
    forall i | 0 <= i < |c.lost| && c.lost[i].LostByName?
      ensures Taken(s'.table, Upper(NameOf(c.base, c.lost[i].candidate)))
    {
      TakenStays(s.table, s'.table, Upper(NameOf(c.base, c.lost[i].candidate)));
    }
    if Taken(s.table, Upper(c.base)) { TakenStays(s.table, s'.table, Upper(c.base)); }
  }

  lemma LossIsRecorded(s: State, c: Call, loss: Loss)
    requires CallOk(s, c) && c.phase.Saving?
    requires match loss
             case LostById => c.id in s.table.rows
             case LostByName(d) => d == c.phase.candidate && Taken(s.table, Upper(NameOf(c.base, d)))
    ensures CallOk(s, Lose(c, loss))
  {
    var n := |c.lost|;
    var d := Lose(c, loss);
    assert forall i | 0 <= i < n :: d.lost[i] == c.lost[i];
    assert d.lost[n] == loss;
    assert n > 0 ==> c.lost[n - 1].LostByName?;
  }

  lemma CallSurvivesCommit(s: State, c: Call)
    requires CallOk(s, c)
    ensures var (t, d) := Commit(s.table, c); CallOk(s.(table := t), d)
  {
    var (t, d) := Commit(s.table, c);
    if c.phase.Saving? {
      if d.phase.Named? {
        CallSurvivesGrowth(s, s.(table := t), c.(phase := Reading));
      } else if c.id in s.table.rows {
        LossIsRecorded(s, c, LostById);
      } else {
        LossIsRecorded(s, c, LostByName(c.phase.candidate));
      }
    }
  }

  lemma CallSurvivesChoice(s: State, c: Call, val: Int32)
    requires CallOk(s, c)
    ensures CallOk(s, ChooseName(s.table, s.reserved, c, val))
  {}

  lemma CallSurvivesSave(s: State, k: nat)
    requires Inv(s) && k in s.calls
    ensures var s' := Step(s, Save(k)); CallOk(s', s'.calls[k])
  {
    var s' := Step(s, Save(k));
    CallSurvivesCommit(s, s.calls[k]);
    CallSurvivesGrowth(s.(table := s'.table), s', s'.calls[k]);
  }

  lemma CallSurvivesRead(s: State, c: Call)
    requires CallOk(s, c)
    ensures CallOk(s, ReadRow(s.table, c))
  {}

  /** A step changes no other call than the one it belongs to. */
  predicate Concerns(a: Action, k: nat) { !a.CreateVirtualization? && a.call == k }

  lemma CallsSurvive(s: State, a: Action, k: nat)
    requires Inv(s) && Enabled(s, a) && k in Step(s, a).calls
    ensures CallOk(Step(s, a), Step(s, a).calls[k])
  {
    var s' := Step(s, a);
    StepGrows(s, a);
    if !Concerns(a, k) {
      CallSurvivesGrowth(s, s', s.calls[k]);
    } else {
      match a
      case Begin(_, _, _) =>
      case Read(_) =>
        CallSurvivesRead(s, s.calls[k]);
        CallSurvivesGrowth(s, s', s'.calls[k]);
      case Choose(_, val) =>
        CallSurvivesChoice(s, s.calls[k], val);
        CallSurvivesGrowth(s, s', s'.calls[k]);
      case Save(_) => CallSurvivesSave(s, k);
    }
  }

  lemma {:induction false} InvOverRuns(reserved: set<string>, actions: seq<Action>)
    requires IsRun(Init(reserved), actions)
    ensures Inv(Run(Init(reserved), actions))
  {
    if actions != [] {
      var n := |actions| - 1;
      InvOverRuns(reserved, actions[..n]);
      var s := Run(Init(reserved), actions[..n]);
      TableSurvives(s, actions[n]);
      forall k | k in Step(s, actions[n]).calls ensures CallOk(Step(s, actions[n]), Step(s, actions[n]).calls[k]) {
        CallsSurvive(s, actions[n], k);
      }
    }
  }

  // ---------------------------------------------------------------- the theorems

  /** Whatever the interleaving, calls that succeed for one connection hold one name, and calls that succeed for
      different connections hold names that differ in more than case. */
  lemma Agreement(reserved: set<string>, actions: seq<Action>, j: nat, k: nat)
    requires IsRun(Init(reserved), actions)
    requires var s := Run(Init(reserved), actions);
             j in s.calls && k in s.calls && s.calls[j].phase.Named? && s.calls[k].phase.Named?
    ensures var s := Run(Init(reserved), actions);
            var c, d := s.calls[j], s.calls[k];
            && (c.id == d.id ==> c.phase.name == d.phase.name)
            && (c.id != d.id ==> Upper(c.phase.name) != Upper(d.phase.name))
            && |c.phase.name| <= MAXIMUM_LENGTH
  {
    InvOverRuns(reserved, actions);
    NamesFit(Run(Init(reserved), actions).calls[j].phase.name);
  }

  /** A name once held is held for good. */
  lemma NamesAreFinal(s: State, a: Action, k: nat)
    requires Enabled(s, a) && k in s.calls && s.calls[k].phase.Named?
    ensures k in Step(s, a).calls && Step(s, a).calls[k] == s.calls[k]
  {}
}
