/** The schema structure of a source: a trie of path segments, filled table by table.  The specification is a map
    from root-to-node paths to what their nodes show. */
module SchemaTrie {
  import opened Prelude

  datatype Segment = Segment(kind: string, name: string)

  type Path = seq<Segment>

  datatype Info = Info(queryable: bool, table: Option<string>)

  /** A table together with the path its name option spells. */
  datatype Entry = Entry(path: Path, table: string)

  function Touch(t: map<Path, Info>, path: Path): map<Path, Info> {
    if path in t then t else t[path := Info(false, None)]
  }

  /** The nodes for the first `n` levels of a path exist. */
  function Spine(t: map<Path, Info>, path: Path, n: nat): map<Path, Info>
    requires n <= |path|
  {
    if n == 0 then t else Touch(Spine(t, path, n - 1), path[..n])
  }

  /** A table at the root always marks its node.  Below the root a new leaf is offered to its parent, whose set of
      children ignores it when it has an equal child already. */
  function Insert(t: map<Path, Info>, e: Entry): map<Path, Info>
    requires e.path != []
  {
    if |e.path| == 1 then t[e.path := Info(true, Some(e.table))]
    else
      var s := Spine(t, e.path, |e.path| - 1);
      if e.path in s then s else s[e.path := Info(true, Some(e.table))]
  }

  predicate AllProper(es: seq<Entry>) { forall i | 0 <= i < |es| :: es[i].path != [] }

  function Build(es: seq<Entry>): map<Path, Info>
    requires AllProper(es)
  {
    if es == [] then map[] else Insert(Build(es[..|es| - 1]), es[|es| - 1])
  }

  lemma BuildExtends(es: seq<Entry>, e: Entry)
    requires AllProper(es) && e.path != []
    ensures AllProper(es + [e]) && Build(es + [e]) == Insert(Build(es), e)
  {
    assert (es + [e])[..|es|] == es;
  }

  // ---------------------------------------------------------------- what the trie holds

  lemma {:induction false} SpineKeys(t: map<Path, Info>, path: Path, n: nat, p: Path)
    requires n <= |path|
    ensures p in Spine(t, path, n) <==> p in t || (0 < |p| <= n && p <= path)
    ensures p in t ==> Spine(t, path, n)[p] == t[p]
    ensures p in Spine(t, path, n) && p !in t ==> Spine(t, path, n)[p] == Info(false, None)
  {
    if n > 0 {
      SpineKeys(t, path, n - 1, p);
      if |p| == n && p <= path { assert p == path[..n]; }
    }
  }

  /** What one insertion does to every path. */
  lemma InsertAt(t: map<Path, Info>, e: Entry, p: Path)
    requires e.path != []
    ensures p in Insert(t, e) <==> p in t || (p != [] && p <= e.path)
    ensures p in Insert(t, e) ==>
              Insert(t, e)[p] ==
              if p == e.path && (|p| == 1 || p !in t) then Info(true, Some(e.table))
              else if p in t then t[p] else Info(false, None)
  {
    SpineKeys(t, e.path, |e.path| - 1, p);
    if p <= e.path && |p| == |e.path| { assert p == e.path; }
  }

  /** The paths of the trie are exactly the non-empty prefixes of the inserted paths. */
  lemma {:induction false} PrefixClosure(es: seq<Entry>, p: Path)
    requires AllProper(es)
    ensures p in Build(es) <==> p != [] && exists i :: 0 <= i < |es| && p <= es[i].path
  {
    if es != [] {
      var n := |es| - 1;
      PrefixClosure(es[..n], p);
      InsertAt(Build(es[..n]), es[n], p);
      if i :| 0 <= i < |es| && p <= es[i].path { assert i < n ==> es[..n][i] == es[i]; }
    }
  }

  /** Entry `i` decides what path `p` shows: at the root the last entry for the path, below it an entry for the
      path that no earlier entry passes through or repeats. */
  ghost predicate Decides(es: seq<Entry>, p: Path, i: nat) {
    && i < |es| && es[i].path == p
    && (if |p| == 1 then forall j | i < j < |es| :: es[j].path != p
        else forall j | 0 <= j < i :: !(p <= es[j].path))
  }

  lemma DecisionStays(es: seq<Entry>, p: Path, i: nat)
    requires es != [] && Decides(es[..|es| - 1], p, i) && !(|p| == 1 && es[|es| - 1].path == p)
    ensures Decides(es, p, i)
  {
    var n := |es| - 1;
    assert forall j | 0 <= j < n :: es[..n][j] == es[j];
  }

  lemma NoEarlierDecision(es: seq<Entry>, p: Path, i: nat)
    requires es != [] && Decides(es, p, i) && i < |es| - 1
    ensures Decides(es[..|es| - 1], p, i)
  {
    var n := |es| - 1;
    assert forall j | 0 <= j < n :: es[..n][j] == es[j];
  }

  /** A node is queryable, with the table of the entry that decides, exactly when some entry decides. */
  lemma {:induction false} QueryableNodes(es: seq<Entry>, p: Path)
    requires AllProper(es) && p in Build(es)
    ensures Build(es)[p].queryable <==> exists i :: Decides(es, p, i)
    ensures forall i: nat | Decides(es, p, i) :: Build(es)[p] == Info(true, Some(es[i].table))
    ensures !Build(es)[p].queryable ==> Build(es)[p] == Info(false, None)
  {
    var n := |es| - 1;
    var front := es[..n];
    InsertAt(Build(front), es[n], p);
    PrefixClosure(front, p);
    if p in Build(front) { QueryableNodes(front, p); }
    if p == es[n].path && (|p| == 1 || p !in Build(front)) {
      assert forall j | 0 <= j < n :: front[j] == es[j];
      assert Decides(es, p, n);
    } else if p in Build(front) {
      if i :| Decides(front, p, i) { DecisionStays(es, p, i); }
    }
    forall i: nat | Decides(es, p, i)
      ensures Build(es)[p] == Info(true, Some(es[i].table))
    {
      if i < n {
        NoEarlierDecision(es, p, i);
        assert front[i] == es[i];
      }
    }
  }

  /** No path continues another, and no path is given twice. */
  ghost predicate PrefixFree(es: seq<Entry>) {
    forall i, j | 0 <= i < |es| && 0 <= j < |es| && i != j :: !(es[i].path <= es[j].path)
  }

  /** For prefix-free input the queryable nodes are exactly the tables. */
  lemma PrefixFreeTables(es: seq<Entry>, p: Path)
    requires AllProper(es) && PrefixFree(es) && p in Build(es)
    ensures Build(es)[p].queryable <==> exists i :: 0 <= i < |es| && es[i].path == p
    ensures forall i | 0 <= i < |es| && es[i].path == p :: Build(es)[p] == Info(true, Some(es[i].table))
  {
    QueryableNodes(es, p);
    forall i | 0 <= i < |es| && es[i].path == p ensures Decides(es, p, i) {}
  }

  lemma MoreTables(es: seq<Entry>, fs: seq<Entry>, p: Path)
    requires AllProper(es) && AllProper(fs) && PrefixFree(es) && PrefixFree(fs)
    requires forall i | 0 <= i < |es| :: es[i] in fs
    requires p in Build(es)
    ensures p in Build(fs) && (Build(es)[p].queryable ==> Build(fs)[p] == Build(es)[p])
  {
    PrefixClosure(es, p);
    var k :| 0 <= k < |es| && p <= es[k].path;
    assert es[k] in fs;
    PrefixClosure(fs, p);
    PrefixFreeTables(es, p);
    PrefixFreeTables(fs, p);
    if Build(es)[p].queryable {
      var i :| 0 <= i < |es| && es[i].path == p;
      assert es[i] in fs;
      var j :| 0 <= j < |fs| && fs[j] == es[i];
    }
  }

  /** So the order of the tables does not matter. */
  lemma OrderIsIrrelevant(es: seq<Entry>, fs: seq<Entry>)
    requires AllProper(es) && AllProper(fs) && PrefixFree(es) && PrefixFree(fs)
    requires forall e :: e in es <==> e in fs
    ensures Build(es) == Build(fs)
  {
    forall p | p in Build(es) ensures p in Build(fs) && Build(fs)[p] == Build(es)[p] {
      MoreTables(es, fs, p);
      MoreTables(fs, es, p);
      QueryableNodes(es, p);
      QueryableNodes(fs, p);
    }
    forall p | p in Build(fs) ensures p in Build(es) { MoreTables(fs, es, p); }
  }

  /** Order matters otherwise: a table whose path another one continues loses its mark if it comes second. */
  lemma OrderMatters(parent: Segment, middle: Segment, leaf: Segment, x: string, y: string)
    ensures var outer, inner := Entry([parent, middle], x), Entry([parent, middle, leaf], y);
            && outer.path in Build([outer, inner]) && Build([outer, inner])[outer.path] == Info(true, Some(x))
            && outer.path in Build([inner, outer]) && Build([inner, outer])[outer.path] == Info(false, None)
  {
    var outer, inner := Entry([parent, middle], x), Entry([parent, middle, leaf], y);
    var first, second := [outer, inner], [inner, outer];
    PrefixClosure(first, outer.path);
    assert outer.path <= first[0].path;
    QueryableNodes(first, outer.path);
    assert Decides(first, outer.path, 0);
    assert first[0] == outer;
    PrefixClosure(second, outer.path);
    assert outer.path <= second[0].path;
    QueryableNodes(second, outer.path);
    assert forall i: nat :: Decides(second, outer.path, i) ==> i == 1 && !(outer.path <= second[0].path);
  }
}
