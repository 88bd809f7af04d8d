/** From the printed path of each table to the nodes of the schema structure, end to end. */
module SchemaPaths {
  import opened Prelude
  import opened SchemaTrie
  import opened SchemaNodes
  import PathOptions

  type Pairs = seq<PathOptions.Pair>

  /** The path spells the first pairs of a list, key by kind and value by name. */
  predicate Spells(p: Path, pairs: Pairs) {
    |p| <= |pairs| && forall i | 0 <= i < |p| :: p[i].kind == pairs[i].0 && p[i].name == pairs[i].1
  }

  /** A table without a path option, or with one that prints a path of non-empty parts. */
  predicate Prints(table: Table, pairs: Pairs) {
    table.fqn.Some? ==> pairs != [] && PathOptions.NonEmptyParts(pairs) && table.fqn.value == PathOptions.Print(pairs)
  }

  ghost predicate AllPrint(tables: seq<Table>, paths: seq<Pairs>) {
    |paths| == |tables| && forall k | 0 <= k < |tables| :: Prints(tables[k], paths[k])
  }

  lemma {:induction false} PathSpells(pairs: Pairs, i: nat)
    requires i < |pairs|
    ensures PathOf(pairs)[i].kind == pairs[i].0 && PathOf(pairs)[i].name == pairs[i].1
  {
    if i > 0 { PathSpells(pairs[1..], i - 1); }
  }

  lemma PrefixSpells(p: Path, pairs: Pairs)
    ensures p <= PathOf(pairs) <==> Spells(p, pairs)
  {
    forall i | 0 <= i < |pairs| ensures PathOf(pairs)[i].kind == pairs[i].0 && PathOf(pairs)[i].name == pairs[i].1 {
      PathSpells(pairs, i);
    }
    if Spells(p, pairs) { assert forall i | 0 <= i < |p| :: p[i] == PathOf(pairs)[i]; }
  }

  // ---------------------------------------------------------------- tables and entries

  ghost predicate Is(e: Entry, table: Table, pairs: Pairs) {
    table.fqn.Some? && e.path == PathOf(pairs) && e.table == table.name
  }

  /** The entries are the tables with a path, each at its index, in their order. */
  ghost predicate Lists(es: seq<Entry>, index: seq<nat>, tables: seq<Table>, paths: seq<Pairs>)
    requires |paths| == |tables|
  {
    && |es| == |index|
    && (forall j | 0 <= j < |index| :: index[j] < |tables| && Is(es[j], tables[index[j]], paths[index[j]]))
    && (forall j, k | 0 <= j < k < |index| :: index[j] < index[k])
    && (forall k | 0 <= k < |tables| && tables[k].fqn.Some? :: k in index)
  }

  lemma ListsOneMore(es: seq<Entry>, index: seq<nat>, tables: seq<Table>, paths: seq<Pairs>, table: Table, pairs: Pairs, e: Entry)
    requires |paths| == |tables| && Lists(es, index, tables, paths)
    ensures table.fqn.None? ==> Lists(es, index, tables + [table], paths + [pairs])
    ensures Is(e, table, pairs) ==> Lists(es + [e], index + [|tables|], tables + [table], paths + [pairs])
  {}

  lemma {:induction false} EntriesAre(tables: seq<Table>, paths: seq<Pairs>) returns (index: seq<nat>)
    requires AllPrint(tables, paths)
    ensures EntriesOf(tables).Some? && Lists(EntriesOf(tables).value, index, tables, paths)
  {
    if tables == [] {
      index := [];
    } else {
      var n := |tables| - 1;
      var front := EntriesAre(tables[..n], paths[..n]);
      var es, table, pairs := EntriesOf(tables[..n]).value, tables[n], paths[n];
      assert tables == tables[..n] + [table] && paths == paths[..n] + [pairs];
      assert Prints(table, pairs);
      if table.fqn.Some? { PathOptions.RoundTrip(pairs); }
      ListsOneMore(es, front, tables[..n], paths[..n], table, pairs, Entry(PathOf(pairs), table.name));
      index := if table.fqn.Some? then front + [n] else front;
    }
  }

  predicate BadPath(table: Table) {
    table.fqn.Some? && (!PathOptions.Parse(table.fqn.value).Options? || PathOptions.Parse(table.fqn.value).pairs == [])
  }

  /** The structure is refused if and only if the path of some table does not parse, or parses to nothing. */
  lemma {:induction false} RefusedForBadPaths(tables: seq<Table>)
    ensures EntriesOf(tables).None? <==> exists table :: table in tables && BadPath(table)
  {
    if tables != [] {
      var n := |tables| - 1;
      RefusedForBadPaths(tables[..n]);
      if EntriesOf(tables[..n]).Some? {
        assert BadPath(tables[n]) <==> EntriesOf(tables).None?;
        assert forall t :: t in tables ==> t in tables[..n] || t == tables[n];
      } else {
        var t :| t in tables[..n] && BadPath(t);
        assert t in tables;
      }
    }
  }

  // ---------------------------------------------------------------- what the structure shows

  ghost predicate Passes(tables: seq<Table>, paths: seq<Pairs>, p: Path, k: nat)
    requires |paths| == |tables|
  {
    k < |tables| && tables[k].fqn.Some? && Spells(p, paths[k])
  }

  /** The table's path ends at `p`, and nothing takes the mark from it: at the root no later table with this path,
      below it no earlier table whose path leads there. */
  ghost predicate Marks(tables: seq<Table>, paths: seq<Pairs>, p: Path, k: nat)
    requires |paths| == |tables|
  {
    && Passes(tables, paths, p, k) && |p| == |paths[k]|
    && if |p| == 1 then forall m: nat | m > k && Passes(tables, paths, p, m) :: |paths[m]| != 1
       else forall m: nat | m < k :: !Passes(tables, paths, p, m)
  }

  lemma PassingEntry(es: seq<Entry>, index: seq<nat>, tables: seq<Table>, paths: seq<Pairs>, p: Path, j: nat)
    requires |paths| == |tables| && Lists(es, index, tables, paths) && j < |es|
    ensures p <= es[j].path <==> Passes(tables, paths, p, index[j])
    ensures p == es[j].path <==> Passes(tables, paths, p, index[j]) && |p| == |paths[index[j]]|
  {
    PrefixSpells(p, paths[index[j]]);
    assert p == es[j].path <==> p <= es[j].path && |p| == |es[j].path|;
  }

  lemma DecidingEntry(es: seq<Entry>, index: seq<nat>, tables: seq<Table>, paths: seq<Pairs>, p: Path, j: nat)
    requires |paths| == |tables| && Lists(es, index, tables, paths) && j < |es|
    ensures Decides(es, p, j) <==> Marks(tables, paths, p, index[j])
  {
    forall i | 0 <= i < |es|
      ensures p <= es[i].path <==> Passes(tables, paths, p, index[i])
      ensures p == es[i].path <==> Passes(tables, paths, p, index[i]) && |p| == |paths[index[i]]|
    {
      PassingEntry(es, index, tables, paths, p, i);
    }
    if Decides(es, p, j) {
      forall m: nat | Passes(tables, paths, p, m) ensures exists i :: 0 <= i < |index| && index[i] == m {
        assert m in index;
      }
    }
  }

  /** The nodes are at the beginnings of the tables' paths, kind by key and name by value.  A node is queryable, and
      shows the table's name, if and only if a table marks it; tables without a path leave no trace. */
  lemma NodesOfTables(tables: seq<Table>, paths: seq<Pairs>, p: Path)
    requires AllPrint(tables, paths)
    ensures EntriesOf(tables).Some?
    ensures var trie := Build(EntriesOf(tables).value);
            && (p in trie <==> p != [] && exists k: nat :: Passes(tables, paths, p, k))
            && (p in trie ==> (trie[p].queryable <==> exists k: nat :: Marks(tables, paths, p, k)))
            && (p in trie && !trie[p].queryable ==> trie[p].table.None?)
            && (forall k: nat | Marks(tables, paths, p, k) && p in trie :: trie[p].table == Some(tables[k].name))
  {
    var index := EntriesAre(tables, paths);
    var es := EntriesOf(tables).value;
    PrefixClosure(es, p);
    forall j | 0 <= j < |es|
      ensures p <= es[j].path <==> Passes(tables, paths, p, index[j])
      ensures Decides(es, p, j) <==> Marks(tables, paths, p, index[j])
    {
      PassingEntry(es, index, tables, paths, p, j);
      DecidingEntry(es, index, tables, paths, p, j);
    }
    forall k: nat | Passes(tables, paths, p, k) ensures exists j :: 0 <= j < |es| && index[j] == k { assert k in index; }
    if p in Build(es) { QueryableNodes(es, p); }
  }

  /** In the heap: along the path of every table there are nodes, reached one under the other from a root, each
      with the key of its level for a type and the value for a name. */
  lemma TablesInTheHeap(tree: SchemaTree, tables: seq<Table>, paths: seq<Pairs>, k: nat, p: Path)
    requires AllPrint(tables, paths)
    requires EntriesOf(tables).Some? && tree.Valid() && tree.View() == Build(EntriesOf(tables).value)
    requires k < |tables| && tables[k].fqn.Some? && p != [] && Spells(p, paths[k])
    ensures p in tree.nodes && tree.Reaches(p, tree.nodes[p])
    ensures tree.nodes[p].kind == paths[k][|p| - 1].0 && tree.nodes[p].name == paths[k][|p| - 1].1
  {
    NodesOfTables(tables, paths, p);
    assert Passes(tables, paths, p, k);
    assert p in tree.View();
    tree.HeapIsRegistry(p, tree.nodes[p]);
    assert tree.nodes[p].Label() == p[|p| - 1];
  }
}
