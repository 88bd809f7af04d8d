/** Which representation a map has: when array maps, bitmap nodes and full arrays turn into each other, and in
    which order entries are kept. */
module HashTrieShapes {
  import opened Prelude
  import opened BitCount
  import opened HashTrie
  import opened HashTrieProofs
  import opened HashTrieMap

  // ---------------------------------------------------------------- entry lists

  /** A new entry goes to the end, a replaced one keeps its place, and the last one moves into the place of a
      removed one. */
  lemma EntriesInOrder<K(!new), V>(entries: seq<(K, V)>, c: nat, k: K, v: V)
    requires Distinct(entries)
    ensures LookupIn(entries, k).None? ==> UpdatedEntries(entries, k, Some(v)) == entries + [(k, v)]
    ensures LookupIn(entries, k).None? ==> UpdatedEntries(entries, k, None) == entries
    ensures c < |entries| && entries[c].0 == k ==>
              && UpdatedEntries(entries, k, Some(v)) == entries[..c] + [(k, v)] + entries[c + 1..]
              && UpdatedEntries(entries, k, None) ==
                   if c == |entries| - 1 then entries[..c] else entries[..c] + [entries[|entries| - 1]] + entries[c + 1..|entries| - 1]
  {
    if c < |entries| && entries[c].0 == k { LookupFinds(entries, c); }
  }

  /** Two keys with one hash make a collision node, the older one first. */
  lemma CollisionInOrder<K(!new), V(!new)>(hash: K -> Word, first: K, x: V, k: K, v: V, path: seq<nat>)
    requires first != k && hash(first) == hash(k) && Agrees(hash(k), path)
    ensures UpdateTree(hash, ValueNode(hash(first), first, x), |path|, path, k, Some(v))
         == Altered(Some(Collision(hash(k), [(first, x), (k, v)])), true)
  {}

  /** An update of an array map gives back the map itself exactly when it has nothing to change. */
  lemma UnchangedIsSame<K(!new), V(!new)>(hash: K -> Word, entries: seq<(K, V)>, k: K, v: Option<V>)
    ensures UpdateArrayMap(hash, entries, k, v).Same? <==> LookupIn(entries, k) == v
  {}

  // ---------------------------------------------------------------- growing and shrinking

  /** A seventeenth child turns a bitmap node into a full array; a full array that is left with fewer than eight
      turns back. */
  lemma NodesGrowAndShrink<K(!new), V(!new)>(hash: K -> Word, node: Node<K, V>, path: seq<nat>, i: nat, child: Option<Node<K, V>>)
    requires WellFormed(hash, node, path) && !IsLeaf(node) && i < 32
    requires child.None? ==> Child(node, i).Some?
    requires child.None? && node.BitmapNode? ==> |node.nodes| != 1
    ensures node.BitmapNode? ==>
              |node.nodes| <= 16 && (child.Some? ==>
                (WithChild(node, i, child).HashArray? <==> |node.nodes| == 16 && Child(node, i).None?))
    ensures node.HashArray? ==>
              node.count >= 8 && (WithChild(node, i, child).BitmapNode? <==> child.None? && node.count == 8)
  {
    if node.BitmapNode? { RankInRange(node.bits, i); }
  }

  lemma {:induction false} SomeSlot<T>(slots: seq<Option<T>>) returns (i: nat)
    requires CountSome(slots) > 0
    ensures i < |slots| && slots[i].Some?
  {
    if slots[0].Some? {
      i := 0;
    } else {
      i := SomeSlot(slots[1..]);
      i := i + 1;
    }
  }

  /** Every node stores some key. */
  lemma {:induction false} SomeKey<K(!new), V(!new)>(hash: K -> Word, node: Node<K, V>, path: seq<nat>) returns (k: K)
    requires WellFormed(hash, node, path)
    ensures Get(hash, node, |path|, k).Some? && Agrees(hash(k), path)
    decreases node
  {
    match node
    case ValueNode(_, key, _) => k := key;
    case Collision(_, entries) =>
      k := entries[0].0;
      LookupFinds(entries, 0);
      assert entries[0] in entries;
    case BitmapNode(bits, nodes) =>
      var i := PositionHasBit(bits, 0);
      k := SomeKey(hash, Child(node, i).value, path + [i]);
      FoundUnder(hash, node, path, i, k);
    case HashArray(count, slots) =>
      var i := SomeSlot(slots);
      k := SomeKey(hash, Child(node, i).value, path + [i]);
      FoundUnder(hash, node, path, i, k);
  }

  lemma FoundUnder<K(!new), V(!new)>(hash: K -> Word, node: Node<K, V>, path: seq<nat>, i: nat, k: K)
    requires !IsLeaf(node) && Child(node, i).Some? && Agrees(hash(k), path + [i])
    requires Get(hash, Child(node, i).value, |path| + 1, k).Some?
    ensures Get(hash, node, |path|, k).Some? && Agrees(hash(k), path)
  {
    assert (path + [i])[|path|] == i;
    assert forall j | 0 <= j < |path| :: (path + [i])[j] == path[j];
  }

  /** The map has had more than eight keys since it was last empty. */
  ghost predicate Outgrown<K, V>(ops: seq<Op<K, V>>) {
    ops != [] && |History(ops)| > 0 && (|History(ops)| > 8 || Outgrown(ops[..|ops| - 1]))
  }

  lemma EmptyHasNoKeys<K(!new), V(!new)>(hash: K -> Word, m: HashMap<K, V>, model: map<K, V>)
    requires Refines(hash, m, model)
    ensures m.root.Empty? <==> |model| == 0
  {
    match m.root
    case Empty => NothingFound(hash, m, model);
    case ArrayMap(entries) =>
      LookupFinds(entries, 0);
      assert Find(hash, m, entries[0].0) == HashTrieMap.Value(model, entries[0].0);
    case Tree(node) =>
      var k := SomeKey(hash, node, []);
      assert Find(hash, m, k) == HashTrieMap.Value(model, k);
  }

  lemma {:induction false} EntriesAreCounted<K(!new), V(!new)>(hash: K -> Word, m: HashMap<K, V>, model: map<K, V>)
    requires Refines(hash, m, model) && m.root.ArrayMap?
    ensures |model| == |m.root.entries|
  {
    var entries := m.root.entries;
    forall k ensures k in model.Keys <==> exists e :: e in entries && e.0 == k {
      assert Find(hash, m, k) == HashTrieMap.Value(model, k);
      var i := IndexOf(entries, k);
      if i < |entries| { assert entries[i] in entries; }
      if e :| e in entries && e.0 == k {
        var j :| 0 <= j < |entries| && entries[j] == e;
      }
    }
    CountKeys(entries, model.Keys);
  }

  lemma {:induction false} CountKeys<K(!new), V>(entries: seq<(K, V)>, keys: set<K>)
    requires Distinct(entries) && forall k :: k in keys <==> exists e :: e in entries && e.0 == k
    ensures |keys| == |entries|
  {
    if entries == [] {
      assert keys == {};
    } else {
      var front, last := entries[..|entries| - 1], entries[|entries| - 1];
      assert last in entries;
      forall k ensures k in keys - {last.0} <==> exists e :: e in front && e.0 == k {
        if e :| e in front && e.0 == k { assert e in entries; }
      }
      CountKeys(front, keys - {last.0});
    }
  }

  /** After any history, a map is a tree if and only if it has had more than eight keys since it was last empty; with
      at most eight it is an array map otherwise, and without keys it is the empty map. */
  lemma {:induction false} TreesAreOutgrown<K(!new), V(!new)>(hash: K -> Word, ops: seq<Op<K, V>>)
    ensures Apply(hash, ops).root.Tree? <==> Outgrown(ops)
    ensures Apply(hash, ops).root.Empty? <==> |History(ops)| == 0
  {
    var m, model := Apply(hash, ops), History(ops);
    EmptyHasNoKeys(hash, m, model);
    if ops != [] {
      var front, last := ops[..|ops| - 1], ops[|ops| - 1];
      TreesAreOutgrown(hash, front);
      Outgrows(hash, Apply(hash, front), History(front), last.k, OpValue(last));
    }
  }

  lemma Outgrows<K(!new), V(!new)>(hash: K -> Word, m: HashMap<K, V>, model: map<K, V>, k: K, v: Option<V>)
    requires Refines(hash, m, model)
    ensures var after := Updates(model, k, v);
            Update(hash, m, k, v).root.Tree? <==> |after| > 0 && (|after| > 8 || m.root.Tree?)
  {
    var m', after := Update(hash, m, k, v), Updates(model, k, v);
    UpdateRefines(hash, m, model, k, v);
    EmptyHasNoKeys(hash, m', after);
    EmptyHasNoKeys(hash, m, model);
    SizeAfterUpdate(model, k, v);
    if m.root.ArrayMap? { EntriesAreCounted(hash, m, model); }
    if m'.root.ArrayMap? { EntriesAreCounted(hash, m', after); }
  }
}
