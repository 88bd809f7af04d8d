/** What becomes of the name that a connection has elsewhere. */
module NamingBases {
  import opened CaseFolding
  import opened NameSuffix
  import opened Naming

  /** Full stops, question marks, underscores and white space go; every other character stays. */
  lemma StripOne(c: char)
    ensures Strip([c]) == if c in ".?_ \t\n\r" || c as int == 11 || c as int == 12 then "" else [c]
  {
    assert [c][1..] == "";
  }

  /** Each character goes or stays by itself, and what stays keeps its order. */
  lemma {:induction false} StripDistributes(a: string, b: string)
    ensures Strip(a + b) == Strip(a) + Strip(b)
  {
    if a == "" {
      assert a + b == b;
    } else {
      assert (a + b)[1..] == a[1..] + b;
      StripDistributes(a[1..], b);
    }
  }

  lemma {:induction false} NothingToStrip(name: string)
    requires forall c | c in name :: !IsProblematic(c)
    ensures Strip(name) == name
  {
    if name != "" {
      NothingToStrip(name[1..]);
      assert name == [name[0]] + name[1..];
    }
  }

  /** The base is the first 249 characters that stay. */
  lemma BaseIsTheBeginning(name: string, more: string)
    ensures |Strip(name)| <= 249 ==> Base(name) == Strip(name)
    ensures |Strip(name)| >= 249 ==> Base(name + more) == Strip(name)[..249]
  {
    StripDistributes(name, more);
  }

  /** A name that needs no change is its own base. */
  lemma GoodNameIsItsBase(name: string)
    requires |name| <= 249 && forall c | c in name :: !IsProblematic(c)
    ensures Base(name) == name
  {
    NothingToStrip(name);
  }

  // ---------------------------------------------------------------- where names come from

  predicate BeginsFor(a: Action, id: string, base: string) { a.Begin? && a.id == id && Base(a.syndesisName) == base }

  /** The name was asked for by a call for this connection, by the base of the name that the call came with. */
  ghost predicate AskedFor(actions: seq<Action>, id: string, base: string) {
    exists i | 0 <= i < |actions| :: BeginsFor(actions[i], id, base)
  }

  ghost predicate FromCall(actions: seq<Action>, id: string, name: string) {
    exists base, c :: AskedFor(actions, id, base) && name == NameOf(base, c)
  }

  ghost predicate CallsAskedFor(s: State, actions: seq<Action>) {
    forall k | k in s.calls :: AskedFor(actions, s.calls[k].id, s.calls[k].base)
  }

  ghost predicate RowsFromCalls(s: State, actions: seq<Action>) {
    forall id | id in s.table.rows :: FromCall(actions, id, s.table.rows[id])
  }

  lemma AskedForLater(actions: seq<Action>, a: Action, id: string, base: string)
    requires AskedFor(actions, id, base) || BeginsFor(a, id, base)
    ensures AskedFor(actions + [a], id, base)
  {
    if AskedFor(actions, id, base) {
      var i :| 0 <= i < |actions| && BeginsFor(actions[i], id, base);
      assert BeginsFor((actions + [a])[i], id, base);
    } else {
      assert BeginsFor((actions + [a])[|actions|], id, base);
    }
  }

  lemma FromCallLater(actions: seq<Action>, a: Action, id: string, name: string)
    requires FromCall(actions, id, name)
    ensures FromCall(actions + [a], id, name)
  {
    var base, c :| AskedFor(actions, id, base) && name == NameOf(base, c);
    AskedForLater(actions, a, id, base);
  }

  lemma CallsStep(s: State, actions: seq<Action>, a: Action)
    requires CallsAskedFor(s, actions)
    ensures CallsAskedFor(Step(s, a), actions + [a])
  {
    var s' := Step(s, a);
    forall k | k in s'.calls ensures AskedFor(actions + [a], s'.calls[k].id, s'.calls[k].base) {
      if k in s.calls && !a.Begin? { assert s'.calls[k].id == s.calls[k].id && s'.calls[k].base == s.calls[k].base; }
      AskedForLater(actions, a, s'.calls[k].id, s'.calls[k].base);
    }
  }

  lemma RowsStep(s: State, actions: seq<Action>, a: Action)
    requires CallsAskedFor(s, actions) && RowsFromCalls(s, actions)
    ensures RowsFromCalls(Step(s, a), actions + [a])
  {
    var s' := Step(s, a);
    forall id | id in s'.table.rows ensures FromCall(actions + [a], id, s'.table.rows[id]) {
      if id !in s.table.rows {
        var c := s.calls[a.call];
        AskedForLater(actions, a, c.id, c.base);
        assert s'.table.rows[id] == NameOf(c.base, c.phase.candidate);
      } else {
        FromCallLater(actions, a, id, s.table.rows[id]);
      }
    }
  }

  /** Over every run, with any number of pods: a connection's name is the base of a name that some call for this
      connection came with, or that base followed by an underscore and five random characters. */
  lemma {:induction false} NamesComeFromCalls(reserved: set<string>, actions: seq<Action>)
    ensures CallsAskedFor(Run(Init(reserved), actions), actions)
    ensures RowsFromCalls(Run(Init(reserved), actions), actions)
  {
    if actions != [] {
      var n := |actions| - 1;
      NamesComeFromCalls(reserved, actions[..n]);
      assert actions == actions[..n] + [actions[n]];
      CallsStep(Run(Init(reserved), actions[..n]), actions[..n], actions[n]);
      RowsStep(Run(Init(reserved), actions[..n]), actions[..n], actions[n]);
    }
  }
}
