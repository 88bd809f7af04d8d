/** The map itself: an empty root, a small array of entries or a tree, with its size; and the theorem that
    every history of sets and removals is that of a finite map. */
module HashTrieMap {
  import opened Prelude
  import opened BitCount
  import opened HashTrie
  import opened HashTrieProofs

  /** The array map outgrown: start from the new entry and store the old ones one by one. */
  function StoreAll<K(==, !new), V(==, !new)>(hash: K -> Word, node: Node<K, V>, entries: seq<(K, V)>): (all: Node<K, V>)
    requires WellFormed(hash, node, [])
    ensures WellFormed(hash, all, [])
    decreases |entries|
  {
    if entries == [] then node
    else
      UpdateTreeIsRight(hash, node, [], entries[0].0, Some(entries[0].1));
      match UpdateTree(hash, node, 0, [], entries[0].0, Some(entries[0].1))
      case Same => StoreAll(hash, node, entries[1..])
      case Altered(next, _) => StoreAll(hash, next.value, entries[1..])
  }

  ghost predicate RootFormed<K(!new), V(!new)>(hash: K -> Word, root: Root<K, V>) {
    match root
    case Empty => true
    case ArrayMap(entries) => 1 <= |entries| <= MAX_ARRAY_MAP_SIZE && Distinct(entries)
    case Tree(node) => WellFormed(hash, node, [])
  }

  function Find<K(==), V>(hash: K -> Word, m: HashMap<K, V>, k: K): Option<V> {
    match m.root
    case Empty => None
    case ArrayMap(entries) => LookupIn(entries, k)
    case Tree(node) => Get(hash, node, 0, k)
  }

  function UpdateArrayMap<K(==, !new), V(==, !new)>(hash: K -> Word, entries: seq<(K, V)>, k: K, v: Option<V>): Updated<Root<K, V>> {
    var c := IndexOf(entries, k);
    var found := c < |entries|;
    if (if found then Some(entries[c].1) == v else v.None?) then Same
    else if v.None? && |entries| == 1 then Altered(None, true)
    else if !found && v.Some? && |entries| >= MAX_ARRAY_MAP_SIZE then
      Altered(Some(Tree(StoreAll(hash, ValueNode(hash(k), k, v.value), entries))), true)
    else Altered(Some(ArrayMap(UpdatedEntries(entries, k, v))), v.None? || !found)
  }

  /** Set (`v` present) or remove (`v` absent) a key. */
  function Update<K(==, !new), V(==, !new)>(hash: K -> Word, m: HashMap<K, V>, k: K, v: Option<V>): HashMap<K, V>
    requires RootFormed(hash, m.root)
  {
    if m.root.Empty? then
      if v.None? then m else HashMap(1, ArrayMap([(k, v.value)]))
    else
      var updated: Updated<Root<K, V>> :=
        match m.root
        case ArrayMap(entries) => UpdateArrayMap(hash, entries, k, v)
        case Tree(node) =>
          (match UpdateTree(hash, node, 0, [], k, v)
           case Same => Same
           case Altered(after, resized) => Altered(if after.Some? then Some(Tree(after.value)) else None, resized));
      match updated
      case Same => m
      case Altered(root, resized) =>
        if root.None? then HashMap(0, Empty)
        else HashMap(m.size + (if !resized then 0 else if v.None? then -1 else 1), root.value)
  }

  // ---------------------------------------------------------------- refinement

  function Value<K, V>(model: map<K, V>, k: K): Option<V> {
    if k in model then Some(model[k]) else None
  }

  ghost predicate Refines<K(!new), V(!new)>(hash: K -> Word, m: HashMap<K, V>, model: map<K, V>) {
    && RootFormed(hash, m.root)
    && m.size == |model|
    && forall k :: Find(hash, m, k) == Value(model, k)
  }

  function Updates<K, V>(model: map<K, V>, k: K, v: Option<V>): map<K, V> {
    if v.Some? then model[k := v.value] else model - {k}
  }

  lemma SizeAfterUpdate<K, V>(model: map<K, V>, k: K, v: Option<V>)
    ensures |Updates(model, k, v)| + (if k in model then 1 else 0) == |model| + (if v.Some? then 1 else 0)
  {
    var after := Updates(model, k, v);
    if v.Some? {
      assert after.Keys == model.Keys + {k};
    } else {
      assert after.Keys == model.Keys - {k};
    }
    assert |after| == |after.Keys| && |model| == |model.Keys|;
  }

  lemma NothingFound<K(!new), V(!new)>(hash: K -> Word, m: HashMap<K, V>, model: map<K, V>)
    requires m.root.Empty? && forall k :: Find(hash, m, k) == Value(model, k)
    ensures model == map[]
  {
    forall k ensures k !in model { assert Find(hash, m, k) == Value(model, k); }
  }

  /** Storing entries with new keys adds exactly those. */
  lemma {:induction false} StoreAllStores<K(!new), V(!new)>(hash: K -> Word, node: Node<K, V>, entries: seq<(K, V)>, k: K)
    requires WellFormed(hash, node, []) && Distinct(entries)
    ensures Get(hash, StoreAll(hash, node, entries), 0, k)
         == if LookupIn(entries, k).Some? then LookupIn(entries, k) else Get(hash, node, 0, k)
    decreases |entries|
  {
    if entries != [] {
      var e := entries[0];
      UpdateTreeIsRight(hash, node, [], e.0, Some(e.1));
      var u := UpdateTree(hash, node, 0, [], e.0, Some(e.1));
      var next := if u.Same? then node else u.node.value;
      StoreAllStores(hash, next, entries[1..], k);
      LookupMisses(entries, k);
      LookupMisses(entries[1..], k);
      assert Get(hash, next, 0, k) == if k == e.0 then Some(e.1) else Get(hash, node, 0, k);
      if k == e.0 {
        assert LookupIn(entries[1..], k).None?;
      } else {
        assert LookupIn(entries, k) == LookupIn(entries[1..], k);
      }
    }
  }

  lemma UpdateArrayRefines<K(!new), V(!new)>(hash: K -> Word, m: HashMap<K, V>, model: map<K, V>, k: K, v: Option<V>)
    requires Refines(hash, m, model) && m.root.ArrayMap?
    ensures Refines(hash, Update(hash, m, k, v), Updates(model, k, v))
  {
    var entries := m.root.entries;
    var m', model' := Update(hash, m, k, v), Updates(model, k, v);
    assert Find(hash, m, k) == Value(model, k);
    DistinctAfterUpdate(entries, k, v);
    SizeAfterUpdate(model, k, v);
    forall k' ensures Find(hash, m', k') == Value(model', k') {
      assert Find(hash, m, k') == Value(model, k');
      LookupAfterUpdate(entries, k, v, k');
      if m'.root.Tree? {
        StoreAllStores(hash, ValueNode(hash(k), k, v.value), entries, k');
      } else if m'.root.Empty? {
        assert IndexOf(entries, k) == 0;
        LookupMisses(entries, k');
      }
    }
    if m'.root.Empty? { NothingFound(hash, m', model'); }
  }

  lemma UpdateTreeRefines<K(!new), V(!new)>(hash: K -> Word, m: HashMap<K, V>, model: map<K, V>, k: K, v: Option<V>)
    requires Refines(hash, m, model) && m.root.Tree?
    ensures Refines(hash, Update(hash, m, k, v), Updates(model, k, v))
  {
    var node := m.root.node;
    var m', model' := Update(hash, m, k, v), Updates(model, k, v);
    var u := UpdateTree(hash, node, 0, [], k, v);
    UpdateTreeIsRight(hash, node, [], k, v);
    SizeAfterUpdate(model, k, v);
    assert Find(hash, m, k) == Get(hash, node, 0, k) == Value(model, k);
    if u.Same? {
      assert model' == model;
    } else {
      forall k' ensures Find(hash, m', k') == Value(model', k') {
        assert Find(hash, m, k') == Value(model, k');
        assert Find(hash, m', k') == GetIn(hash, u.node, 0, k');
      }
      if m'.root.Empty? { NothingFound(hash, m', model'); }
    }
  }

  /** One operation: the trie map follows the finite map, in its answers and in its size. */
  lemma UpdateRefines<K(!new), V(!new)>(hash: K -> Word, m: HashMap<K, V>, model: map<K, V>, k: K, v: Option<V>)
    requires Refines(hash, m, model)
    ensures Refines(hash, Update(hash, m, k, v), Updates(model, k, v))
  {
    match m.root
    case ArrayMap(_) => UpdateArrayRefines(hash, m, model, k, v);
    case Tree(_) => UpdateTreeRefines(hash, m, model, k, v);
    case Empty =>
      NothingFound(hash, m, model);
      SizeAfterUpdate(model, k, v);
      if v.Some? {
        forall k' { LookupMisses([(k, v.value)], k'); }
      }
  }

  datatype Op<K, V> = Set(k: K, v: V) | Remove(k: K)

  function OpValue<K, V>(op: Op<K, V>): Option<V> { if op.Set? then Some(op.v) else None }

  /** The finite map after a history of operations. */
  function History<K, V>(ops: seq<Op<K, V>>): map<K, V> {
    if ops == [] then map[]
    else
      var last := ops[|ops| - 1];
      Updates(History(ops[..|ops| - 1]), last.k, OpValue(last))
  }

  /** The trie map after the same history: its size is the number of keys, and it answers every key alike. */
  function Apply<K(==, !new), V(==, !new)>(hash: K -> Word, ops: seq<Op<K, V>>): (m: HashMap<K, V>)
    ensures RootFormed(hash, m.root)
    ensures m.size == |History(ops)|
    ensures forall k :: Find(hash, m, k) == Value(History(ops), k)
  {
    if ops == [] then HashMap(0, Empty)
    else
      var before := Apply(hash, ops[..|ops| - 1]);
      var last := ops[|ops| - 1];
      UpdateRefines(hash, before, History(ops[..|ops| - 1]), last.k, OpValue(last));
      Update(hash, before, last.k, OpValue(last))
  }
}
