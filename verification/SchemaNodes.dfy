/** The schema structure in the program's form: node objects that own their children, filled in place.  For the
    proof every node remembers the path it was created for, and a ghost registry maps paths to nodes; the
    trie specification is what the registered nodes show. */
module SchemaNodes {
  import opened Prelude
  import opened SchemaTrie
  import PathOptions

  class RestSchemaNode {
    const connectionName: string
    const name: string
    const kind: string
    var teiidName: Option<string>
    var queryable: bool
    var children: seq<RestSchemaNode>
    ghost const path: Path

    constructor (connectionName: string, name: string, kind: string, ghost above: Path)
      ensures this.connectionName == connectionName && Label() == Segment(kind, name) && path == above + [Label()]
      ensures children == [] && Shows() == Info(false, None)
    {
      this.connectionName, this.name, this.kind := connectionName, name, kind;
      path := above + [Segment(kind, name)];
      teiidName, queryable, children := None, false, [];
    }

    function Label(): Segment { Segment(kind, name) }

    function Shows(): Info
      reads this
    {
      Info(queryable, teiidName)
    }

    /** Equality of nodes looks at the connection, the name and the type only. */
    predicate Equals(other: RestSchemaNode) {
      connectionName == other.connectionName && Label() == other.Label()
    }

    /** The children are an insertion-ordered set under that equality. */
    method AddChild(child: RestSchemaNode)
      modifies `children
      ensures children == if exists c | c in old(children) :: c.Equals(child) then old(children) else old(children) + [child]
    {
      if !exists c | c in children :: c.Equals(child) {
        children := children + [child];
      }
    }
  }

  /** Searches a list of nodes, not their descendants. */
  method GetMatchingNode(sourceName: string, name: string, kind: string, nodes: seq<RestSchemaNode>) returns (matched: RestSchemaNode?)
    ensures matched != null ==> matched in nodes && matched.connectionName == sourceName && matched.Label() == Segment(kind, name)
    ensures matched == null ==> forall n | n in nodes :: n.connectionName != sourceName || n.Label() != Segment(kind, name)
  {
    matched := null;
    for i := 0 to |nodes|
      invariant forall j | 0 <= j < i :: nodes[j].connectionName != sourceName || nodes[j].Label() != Segment(kind, name)
    {
      if nodes[i].connectionName == sourceName && nodes[i].name == name && nodes[i].kind == kind {
        return nodes[i];
      }
    }
  }

  class SchemaTree {
    const sourceName: string
    var roots: seq<RestSchemaNode>
    ghost var nodes: map<Path, RestSchemaNode>
    ghost var repr: set<RestSchemaNode>

    constructor (sourceName: string)
      ensures Valid() && View() == map[] && repr == {}
    {
      this.sourceName, roots, nodes, repr := sourceName, [], map[], {};
    }

    ghost predicate Owned()
      reads this
    {
      forall p | p in nodes :: nodes[p] in repr
    }

    ghost function Kids(): map<Path, seq<RestSchemaNode>>
      requires Owned()
      reads this, repr
    {
      map p | p in nodes :: nodes[p].children
    }

    ghost function View(): map<Path, Info>
      requires Owned()
      reads this, repr
    {
      map p | p in nodes :: nodes[p].Shows()
    }

    ghost predicate Valid()
      reads this, repr
    {
      Owned() && Structured(sourceName, nodes, roots, Kids())
    }

    /** A new root node. */
    method AddRoot(segment: Segment) returns (node: RestSchemaNode)
      requires Valid() && [segment] !in nodes
      modifies this
      ensures Valid() && fresh(node) && repr == old(repr) + {node} && nodes == old(nodes)[[segment] := node] && node.path == [segment]
      ensures View() == old(View())[[segment] := Info(false, None)]
    {
      node := new RestSchemaNode(sourceName, segment.name, segment.kind, []);
      assert node.path == [segment];
      RootAdded(sourceName, nodes, roots, Kids(), node);
      ghost var kids := Kids();
      roots := roots + [node];
      nodes, repr := nodes[[segment] := node], repr + {node};
      assert Kids() == kids[[segment] := []];
    }

    /** A new node is added to its parent, unless the parent has an equal child. */
    method AddUnder(parent: RestSchemaNode, node: RestSchemaNode)
      requires Valid() && parent.path in nodes && nodes[parent.path] == parent
      requires node !in repr && node.children == [] && node.connectionName == sourceName
      requires node.path == parent.path + [node.Label()]
      modifies `nodes, `repr, parent`children
      ensures Valid() && repr <= old(repr) + {node} && nodes == if node.path in old(nodes) then old(nodes) else old(nodes)[node.path := node]
      ensures View() == if node.path in old(nodes) then old(View()) else old(View())[node.path := node.Shows()]
    {
      ghost var kids := Kids();
      forall p | p in nodes && p != parent.path ensures nodes[p] != parent {
        assert Placed(sourceName, nodes, roots, kids, p);
      }
      if node.path in nodes {
        RegisteredChildIsListed(sourceName, nodes, roots, kids, parent, node.Label());
      } else {
        ChildAdded(sourceName, nodes, roots, kids, parent, node);
        forall c | c in parent.children ensures !c.Equals(node) {
          ChildHasItsPath(sourceName, nodes, roots, kids, parent, c);
        }
      }
      parent.AddChild(node);
      if node.path in nodes {
        assert Kids() == kids;
      } else {
        nodes, repr := nodes[node.path := node], repr + {node};
        assert Kids() == kids[parent.path := kids[parent.path] + [node]][node.path := []];
      }
    }

    /** Marks the node of a table. */
    method Mark(node: RestSchemaNode, table: string)
      requires Valid() && node.path in nodes && nodes[node.path] == node
      modifies node`queryable, node`teiidName
      ensures Valid() && View() == old(View())[node.path := Info(true, Some(table))]
    {
      ghost var kids := Kids();
      forall p | p in nodes && p != node.path ensures nodes[p] != node {
        assert Placed(sourceName, nodes, roots, kids, p);
      }
      node.teiidName := Some(table);
      node.queryable := true;
      assert Kids() == kids;
    }

    /** The root node of a segment, created if the search finds none. */
    method ObtainRoot(segment: Segment) returns (node: RestSchemaNode)
      requires Valid()
      modifies this
      ensures Valid() && fresh(repr - old(repr))
      ensures View() == Touch(old(View()), [segment])
      ensures node.path == [segment] && node.path in nodes && nodes[node.path] == node
    {
      if [segment] in nodes { RegisteredRootIsListed(sourceName, nodes, roots, Kids(), segment); }
      var matchNode := GetMatchingNode(sourceName, segment.name, segment.kind, roots);
      if matchNode == null {
        node := AddRoot(segment);
      } else {
        node := matchNode;
        RootHasItsPath(sourceName, nodes, roots, Kids(), node);
      }
    }

    /** The child of a node for a segment, created if the search finds none. */
    method ObtainUnder(parent: RestSchemaNode, segment: Segment) returns (node: RestSchemaNode)
      requires Valid() && parent.path in nodes && nodes[parent.path] == parent
      modifies this, parent`children
      ensures Valid() && fresh(repr - old(repr))
      ensures View() == Touch(old(View()), parent.path + [segment])
      ensures node.path == parent.path + [segment] && node.path in nodes && nodes[node.path] == node
    {
      if parent.path + [segment] in nodes { RegisteredChildIsListed(sourceName, nodes, roots, Kids(), parent, segment); }
      var matchNode := GetMatchingNode(sourceName, segment.name, segment.kind, parent.children);
      if matchNode == null {
        node := new RestSchemaNode(sourceName, segment.name, segment.kind, parent.path);
        AddUnder(parent, node);
      } else {
        node := matchNode;
        ChildHasItsPath(sourceName, nodes, roots, Kids(), parent, node);
      }
    }

    /** The first level: a path of one segment has its node marked here and no parent. */
    method RootLevel(segments: Path) returns (parentNode: RestSchemaNode?)
      requires Valid() && segments != []
      modifies this, repr
      ensures Valid() && fresh(repr - old(repr))
      ensures |segments| == 1 ==>
                && parentNode == null
                && View() == var t := Touch(old(View()), segments); t[segments := t[segments].(queryable := true)]
      ensures |segments| > 1 ==>
                && View() == Spine(old(View()), segments, 1)
                && parentNode != null && parentNode.path == segments[..1]
                && parentNode.path in nodes && nodes[parentNode.path] == parentNode
    {
      assert segments[..1] == [segments[0]];
      var matchNode := ObtainRoot(segments[0]);
      if |segments| == 1 {
        assert segments == segments[..1];
        SetQueryable(matchNode);
        parentNode := null;
      } else {
        parentNode := matchNode;
      }
    }

    /** The node above the last segment, or null for a single segment.  Nodes on the way are created as needed. */
    method GetLeafNodeParent(segments: Path) returns (parentNode: RestSchemaNode?)
      requires Valid() && segments != []
      modifies this, repr
      ensures Valid() && fresh(repr - old(repr))
      ensures |segments| == 1 ==>
                && parentNode == null
                && View() == var t := Touch(old(View()), segments); t[segments := t[segments].(queryable := true)]
      ensures |segments| > 1 ==>
                && View() == Spine(old(View()), segments, |segments| - 1)
                && parentNode != null && parentNode.path == segments[..|segments| - 1]
                && parentNode.path in nodes && nodes[parentNode.path] == parentNode
    {
      parentNode := RootLevel(segments);
      if parentNode == null {
        return;
      }
      var i := 1;
      while i < |segments| - 1
        invariant 1 <= i < |segments|
        invariant Valid() && fresh(repr - old(repr))
        invariant View() == Spine(old(View()), segments, i)
        invariant parentNode != null && parentNode.path == segments[..i] && parentNode.path in nodes && nodes[parentNode.path] == parentNode
      {
        assert segments[..i] + [segments[i]] == segments[..i + 1];
        parentNode := ObtainUnder(parentNode, segments[i]);
        i := i + 1;
      }
    }

    /** A marked leaf is offered to its parent, whose set of children drops it when it has an equal child. */
    method AddLeaf(parent: RestSchemaNode, segment: Segment, table: string)
      requires Valid() && parent.path in nodes && nodes[parent.path] == parent
      modifies this, parent`children
      ensures Valid() && fresh(repr - old(repr))
      ensures var p := parent.path + [segment];
              View() == if p in old(View()) then old(View()) else old(View())[p := Info(true, Some(table))]
    {
      var node := new RestSchemaNode(sourceName, segment.name, segment.kind, parent.path);
      node.teiidName, node.queryable := Some(table), true;
      assert Kids() == old(Kids()) && View() == old(View());
      AddUnder(parent, node);
    }

    /** A root node is looked up again and marked. */
    method MarkRoot(segment: Segment, table: string)
      requires Valid() && [segment] in nodes
      modifies nodes[[segment]]
      ensures Valid() && View() == old(View())[[segment] := Info(true, Some(table))]
    {
      RegisteredRootIsListed(sourceName, nodes, roots, Kids(), segment);
      var node := GetMatchingNode(sourceName, segment.name, segment.kind, roots);
      RootHasItsPath(sourceName, nodes, roots, Kids(), node);
      Mark(node, table);
    }

    method InsertTable(segments: Path, table: string)
      requires Valid() && segments != []
      modifies this, repr
      ensures Valid() && fresh(repr - old(repr))
      ensures View() == Insert(old(View()), Entry(segments, table))
    {
      var parentNode := GetLeafNodeParent(segments);
      var segment := segments[|segments| - 1];
      if parentNode != null {
        assert parentNode.path + [segment] == segments;
        AddLeaf(parentNode, segment, table);
      } else {
        assert segments == [segment];
        assert segments in View();
        ghost var shown := View();
        MarkRoot(segment, table);
        MarkedTwice(old(View()), segments, shown[segments], Info(true, Some(table)));
      }
    }

    method SetQueryable(node: RestSchemaNode)
      requires Valid() && node.path in nodes && nodes[node.path] == node
      modifies node`queryable
      ensures Valid() && View() == old(View())[node.path := Info(true, node.teiidName)]
    {
      ghost var kids := Kids();
      forall p | p in nodes && p != node.path ensures nodes[p] != node {
        assert Placed(sourceName, nodes, roots, kids, p);
      }
      node.queryable := true;
      assert Kids() == kids;
    }

    /** Node `n` is reached from the roots along path `p`. */
    ghost predicate Reaches(p: Path, n: RestSchemaNode)
      reads this, repr
      decreases |p|
    {
      p != [] && n.Label() == p[|p| - 1] &&
      if |p| == 1 then n in roots else exists m | m in repr :: Reaches(p[..|p| - 1], m) && n in m.children
    }

    /** The nodes in the heap are the registered ones, each reached by its own path only. */
    lemma {:induction false} HeapIsRegistry(p: Path, n: RestSchemaNode)
      requires Valid()
      ensures Reaches(p, n) <==> p in nodes && nodes[p] == n
      ensures Reaches(p, n) ==> n.path == p
      decreases |p|
    {
      if p in nodes { assert Placed(sourceName, nodes, roots, Kids(), p); }
      if |p| > 1 {
        var q := p[..|p| - 1];
        assert p == q + [p[|p| - 1]];
        if Reaches(p, n) {
          var m :| m in repr && Reaches(q, m) && n in m.children;
          HeapIsRegistry(q, m);
          ChildHasItsPath(sourceName, nodes, roots, Kids(), m, n);
        } else if p in nodes && nodes[p] == n {
          HeapIsRegistry(q, nodes[q]);
        }
      } else if |p| == 1 && n in roots {
        RootHasItsPath(sourceName, nodes, roots, Kids(), n);
        assert p == [p[0]];
      }
    }

    /** No two siblings share name and type. */
    lemma SiblingsDiffer(p: Path, i: nat, j: nat)
      requires Valid() && p in nodes && i < j < |nodes[p].children|
      ensures nodes[p].children[i].Label() != nodes[p].children[j].Label()
    {
      assert Placed(sourceName, nodes, roots, Kids(), p);
      ChildHasItsPath(sourceName, nodes, roots, Kids(), nodes[p], nodes[p].children[i]);
      ChildHasItsPath(sourceName, nodes, roots, Kids(), nodes[p], nodes[p].children[j]);
    }
  }

  // ---------------------------------------------------------------- from tables to nodes

  datatype Table = Table(name: string, fqn: Option<string>)

  function PathOf(pairs: seq<(string, string)>): (p: Path)
    ensures |p| == |pairs|
  {
    if pairs == [] then [] else [Segment(pairs[0].0, pairs[0].1)] + PathOf(pairs[1..])
  }

  /** One more table; None if its path does not parse or is empty. */
  function WithTable(es: seq<Entry>, table: Table): (r: Option<seq<Entry>>)
    requires AllProper(es)
    ensures r.Some? ==> AllProper(r.value)
  {
    match table.fqn
    case None => Some(es)
    case Some(option) =>
      match PathOptions.Parse(option)
      case Options(pairs) => if pairs == [] then None else Some(es + [Entry(PathOf(pairs), table.name)])
      case _ => None
  }

  /** The tables that carry a path, with their paths; None if some path is bad. */
  function EntriesOf(tables: seq<Table>): (es: Option<seq<Entry>>)
    ensures es.Some? ==> AllProper(es.value)
  {
    if tables == [] then Some([])
    else
      match EntriesOf(tables[..|tables| - 1])
      case None => None
      case Some(es) => WithTable(es, tables[|tables| - 1])
  }

  lemma EntriesExtend(tables: seq<Table>, i: nat, es: seq<Entry>)
    requires i < |tables| && EntriesOf(tables[..i]) == Some(es) && AllProper(es)
    ensures EntriesOf(tables[..i + 1]) == WithTable(es, tables[i])
  {
    assert tables[..i + 1][..i] == tables[..i];
  }

  lemma BadPathEnds(tables: seq<Table>, i: nat, es: seq<Entry>)
    requires i < |tables| && EntriesOf(tables[..i]) == Some(es) && AllProper(es) && WithTable(es, tables[i]) == None
    ensures EntriesOf(tables) == None
  {
    EntriesExtend(tables, i, es);
    FailureIsFinal(tables, i + 1);
  }

  lemma {:induction false} FailureIsFinal(tables: seq<Table>, n: nat)
    requires n <= |tables| && EntriesOf(tables[..n]) == None
    ensures EntriesOf(tables) == None
    decreases |tables|
  {
    if n < |tables| {
      var front := tables[..|tables| - 1];
      assert front[..n] == tables[..n];
      FailureIsFinal(front, n);
    } else {
      assert tables[..n] == tables;
    }
  }

  /** One table enters the structure, unless its path is bad. */
  method AddTable(tree: SchemaTree, table: Table, ghost es: seq<Entry>) returns (added: bool)
    requires tree.Valid() && AllProper(es) && tree.View() == Build(es)
    modifies tree, tree.repr
    ensures tree.Valid() && fresh(tree.repr - old(tree.repr))
    ensures added <==> WithTable(es, table).Some?
    ensures added ==> tree.View() == Build(WithTable(es, table).value)
  {
    if table.fqn.Some? {
      var segments := PathOptions.GetOptions(table.fqn.value);
      if !segments.Options? || segments.pairs == [] {
        return false;
      }
      var path := PathOf(segments.pairs);
      BuildExtends(es, Entry(path, table.name));
      tree.InsertTable(path, table.name);
    }
    added := true;
  }

  /** The schema structure of a source: the trie of its tables, or null for the exception on a bad path. */
  method GenerateSourceSchema(sourceName: string, tables: seq<Table>) returns (tree: SchemaTree?)
    ensures tree == null <==> EntriesOf(tables) == None
    ensures tree != null ==> fresh(tree) && tree.Valid() && tree.View() == Build(EntriesOf(tables).value)
  {
    var schemaNodes := new SchemaTree(sourceName);
    ghost var es: seq<Entry> := [];
    for i := 0 to |tables|
      invariant EntriesOf(tables[..i]) == Some(es) && AllProper(es)
      invariant fresh(schemaNodes) && fresh(schemaNodes.repr) && schemaNodes.Valid()
      invariant schemaNodes.View() == Build(es)
    {
      EntriesExtend(tables, i, es);
      var added := AddTable(schemaNodes, tables[i], es);
      if !added {
        BadPathEnds(tables, i, es);
        return null;
      }
      es := WithTable(es, tables[i]).value;
    }
    assert tables[..|tables|] == tables;
    tree := schemaNodes;
  }

  // ---------------------------------------------------------------- the shape of the heap

  /** A list of children at place `p`: registered one level below `p`, each once. */
  ghost predicate Siblings(nodes: map<Path, RestSchemaNode>, p: Path, kids: seq<RestSchemaNode>) {
    && (forall c | c in kids :: c.path in nodes && nodes[c.path] == c && |c.path| == |p| + 1 && c.path[..|p|] == p)
    && (forall i, j | 0 <= i < j < |kids| :: kids[i] != kids[j])
  }

  ghost predicate Registered(sourceName: string, node: RestSchemaNode, p: Path) {
    p != [] && node.path == p && node.Label() == p[|p| - 1] && node.connectionName == sourceName
  }

  /** A registered node was created for its path, its children are in order, and it hangs under its parent or is
      a root. */
  ghost predicate Placed(sourceName: string, nodes: map<Path, RestSchemaNode>, roots: seq<RestSchemaNode>, kids: map<Path, seq<RestSchemaNode>>, p: Path)
    requires p in nodes && kids.Keys == nodes.Keys
  {
    && Registered(sourceName, nodes[p], p) && Siblings(nodes, p, kids[p])
    && if |p| == 1 then nodes[p] in roots else p[..|p| - 1] in kids && nodes[p] in kids[p[..|p| - 1]]
  }

  ghost predicate Structured(sourceName: string, nodes: map<Path, RestSchemaNode>, roots: seq<RestSchemaNode>, kids: map<Path, seq<RestSchemaNode>>) {
    && kids.Keys == nodes.Keys
    && Siblings(nodes, [], roots)
    && forall p {:trigger Placed(sourceName, nodes, roots, kids, p)} | p in nodes :: Placed(sourceName, nodes, roots, kids, p)
  }

  lemma ChildHasItsPath(sourceName: string, nodes: map<Path, RestSchemaNode>, roots: seq<RestSchemaNode>, kids: map<Path, seq<RestSchemaNode>>,
                        parent: RestSchemaNode, c: RestSchemaNode)
    requires Structured(sourceName, nodes, roots, kids) && parent.path in nodes && nodes[parent.path] == parent
    requires c in kids[parent.path]
    ensures c.path == parent.path + [c.Label()] && c.path in nodes && nodes[c.path] == c && c.connectionName == sourceName
  {
    assert Placed(sourceName, nodes, roots, kids, parent.path);
    assert Placed(sourceName, nodes, roots, kids, c.path);
    assert c.path == c.path[..|parent.path|] + [c.path[|parent.path|]];
  }

  lemma RootHasItsPath(sourceName: string, nodes: map<Path, RestSchemaNode>, roots: seq<RestSchemaNode>, kids: map<Path, seq<RestSchemaNode>>,
                       c: RestSchemaNode)
    requires Structured(sourceName, nodes, roots, kids) && c in roots
    ensures c.path == [c.Label()] && c.path in nodes && nodes[c.path] == c && c.connectionName == sourceName
  {
    assert Placed(sourceName, nodes, roots, kids, c.path);
  }

  lemma MarkedTwice(t: map<Path, Info>, p: Path, x: Info, y: Info)
    ensures Touch(t, p)[p := x][p := y] == t[p := y]
  {}

  lemma RegisteredRootIsListed(sourceName: string, nodes: map<Path, RestSchemaNode>, roots: seq<RestSchemaNode>, kids: map<Path, seq<RestSchemaNode>>,
                               segment: Segment)
    requires Structured(sourceName, nodes, roots, kids) && [segment] in nodes
    ensures exists c | c in roots :: c.connectionName == sourceName && c.Label() == segment
  {
    assert Placed(sourceName, nodes, roots, kids, [segment]);
  }

  lemma RegisteredChildIsListed(sourceName: string, nodes: map<Path, RestSchemaNode>, roots: seq<RestSchemaNode>, kids: map<Path, seq<RestSchemaNode>>,
                                parent: RestSchemaNode, segment: Segment)
    requires Structured(sourceName, nodes, roots, kids) && parent.path in nodes && nodes[parent.path] == parent
    requires parent.path + [segment] in nodes
    ensures exists c | c in kids[parent.path] :: c.connectionName == sourceName && c.Label() == segment
  {
    var p := parent.path + [segment];
    assert Placed(sourceName, nodes, roots, kids, parent.path);
    assert Placed(sourceName, nodes, roots, kids, p);
    assert p[..|p| - 1] == parent.path;
  }

  lemma SiblingsStay(nodes: map<Path, RestSchemaNode>, p: Path, kids: seq<RestSchemaNode>, node: RestSchemaNode)
    requires Siblings(nodes, p, kids) && node.path !in nodes
    ensures Siblings(nodes[node.path := node], p, kids)
  {}

  lemma SiblingAdded(nodes: map<Path, RestSchemaNode>, p: Path, kids: seq<RestSchemaNode>, node: RestSchemaNode)
    requires Siblings(nodes, p, kids) && node.path !in nodes && |node.path| == |p| + 1 && node.path[..|p|] == p
    ensures Siblings(nodes[node.path := node], p, kids + [node])
  {}

  lemma RootAdded(sourceName: string, nodes: map<Path, RestSchemaNode>, roots: seq<RestSchemaNode>, kids: map<Path, seq<RestSchemaNode>>, node: RestSchemaNode)
    requires Structured(sourceName, nodes, roots, kids)
    requires node.path !in nodes && |node.path| == 1 && Registered(sourceName, node, node.path)
    ensures Structured(sourceName, nodes[node.path := node], roots + [node], kids[node.path := []])
  {
    var nodes', kids' := nodes[node.path := node], kids[node.path := []];
    SiblingAdded(nodes, [], roots, node);
    forall p | p in nodes' ensures Placed(sourceName, nodes', roots + [node], kids', p) {
      if p != node.path {
        assert Placed(sourceName, nodes, roots, kids, p);
        SiblingsStay(nodes, p, kids[p], node);
      }
    }
  }

  lemma ChildAdded(sourceName: string, nodes: map<Path, RestSchemaNode>, roots: seq<RestSchemaNode>, kids: map<Path, seq<RestSchemaNode>>,
                   parent: RestSchemaNode, node: RestSchemaNode)
    requires Structured(sourceName, nodes, roots, kids) && parent.path in nodes && nodes[parent.path] == parent
    requires node.path !in nodes && node.path == parent.path + [node.Label()] && node.connectionName == sourceName
    ensures Structured(sourceName, nodes[node.path := node], roots,
                       kids[parent.path := kids[parent.path] + [node]][node.path := []])
  {
    var q := parent.path;
    var nodes', kids' := nodes[node.path := node], kids[q := kids[q] + [node]][node.path := []];
    assert Placed(sourceName, nodes, roots, kids, q);
    assert node.path[..|q|] == q && |node.path| == |q| + 1;
    SiblingsStay(nodes, [], roots, node);
    forall p | p in nodes' ensures Placed(sourceName, nodes', roots, kids', p) {
      if p == q {
        SiblingAdded(nodes, q, kids[q], node);
      } else if p != node.path {
        assert Placed(sourceName, nodes, roots, kids, p);
        SiblingsStay(nodes, p, kids[p], node);
      }
    }
  }
}
