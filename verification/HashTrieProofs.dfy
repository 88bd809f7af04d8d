/** The hash-trie map refines a finite map. */
module HashTrieProofs {
  import opened Prelude
  import opened BitCount
  import opened HashTrie

  // ---------------------------------------------------------------- ranks under bit updates

  lemma {:induction false} CountAfterUpdate(bits: seq<bool>, i: nat, b: bool)
    requires i < |bits|
    ensures CountTrue(bits[i := b]) + (if bits[i] then 1 else 0) == CountTrue(bits) + (if b then 1 else 0)
  {
    if i > 0 {
      CountAfterUpdate(bits[1..], i - 1, b);
      assert bits[i := b][1..] == bits[1..][i - 1 := b];
    } else {
      assert bits[i := b][1..] == bits[1..];
    }
  }

  lemma {:induction false} RankAfterUpdate(bits: seq<bool>, i: nat, b: bool, j: nat)
    requires i < |bits| && j < |bits|
    ensures j <= i ==> RankOf(bits[i := b], j) == RankOf(bits, j)
    ensures j > i ==> RankOf(bits[i := b], j) + (if bits[i] then 1 else 0) == RankOf(bits, j) + (if b then 1 else 0)
  {
    if j <= i {
      assert bits[i := b][..j] == bits[..j];
    } else {
      assert bits[i := b][..j] == bits[..j][i := b];
      CountAfterUpdate(bits[..j], i, b);
    }
  }

  lemma {:induction false} RankMonotone(bits: seq<bool>, i: nat, j: nat)
    requires i < j < |bits|
    ensures RankOf(bits, i) + (if bits[i] then 1 else 0) <= RankOf(bits, j)
  {
    RankInRange(bits[..j], i);
    assert bits[..j][..i] == bits[..i];
  }

  lemma RanksApart(bits: seq<bool>, i: nat, j: nat)
    requires i < |bits| && j < |bits| && i != j
    ensures i < j ==> RankOf(bits, i) + (if bits[i] then 1 else 0) <= RankOf(bits, j)
    ensures j < i ==> RankOf(bits, j) + (if bits[j] then 1 else 0) <= RankOf(bits, i)
  {
    if i < j { RankMonotone(bits, i, j); } else { RankMonotone(bits, j, i); }
  }

  // ---------------------------------------------------------------- children under splicing

  ghost predicate Fits<K, V>(bits: seq<bool>, nodes: seq<Node<K, V>>) {
    |nodes| == CountTrue(bits)
  }

  lemma ChildInserted<K, V>(bits: seq<bool>, nodes: seq<Node<K, V>>, i: nat, d: Node<K, V>)
    requires Fits(bits, nodes) && i < |bits| && !bits[i] && RankOf(bits, i) <= |nodes|
    ensures var bits', nodes' := bits[i := true], SpliceIn(nodes, RankOf(bits, i), d);
            && Fits(bits', nodes')
            && forall j | 0 <= j < |bits| ::
                 Child(BitmapNode(bits', nodes'), j) == if j == i then Some(d) else Child(BitmapNode(bits, nodes), j)
  {
    var bits', nodes' := bits[i := true], SpliceIn(nodes, RankOf(bits, i), d);
    CountAfterUpdate(bits, i, true);
    forall j | 0 <= j < |bits|
      ensures Child(BitmapNode(bits', nodes'), j) == if j == i then Some(d) else Child(BitmapNode(bits, nodes), j)
    {
      RankAfterUpdate(bits, i, true, j);
      RankInRange(bits, j);
      RankInRange(bits', j);
      if j != i { RanksApart(bits, i, j); }
    }
  }

  lemma ChildReplaced<K, V>(bits: seq<bool>, nodes: seq<Node<K, V>>, i: nat, d: Node<K, V>)
    requires Fits(bits, nodes) && i < |bits| && bits[i] && RankOf(bits, i) < |nodes|
    ensures forall j | 0 <= j < |bits| ::
              Child(BitmapNode(bits, nodes[RankOf(bits, i) := d]), j)
                == if j == i then Some(d) else Child(BitmapNode(bits, nodes), j)
  {
    forall j | 0 <= j < |bits|
      ensures Child(BitmapNode(bits, nodes[RankOf(bits, i) := d]), j)
           == if j == i then Some(d) else Child(BitmapNode(bits, nodes), j)
    {
      RankInRange(bits, j);
      if j != i { RanksApart(bits, i, j); }
    }
  }

  lemma ChildRemoved<K, V>(bits: seq<bool>, nodes: seq<Node<K, V>>, i: nat)
    requires Fits(bits, nodes) && i < |bits| && bits[i] && RankOf(bits, i) < |nodes|
    ensures var bits', nodes' := bits[i := false], SpliceOut(nodes, RankOf(bits, i));
            && Fits(bits', nodes')
            && forall j | 0 <= j < |bits| ::
                 Child(BitmapNode(bits', nodes'), j) == if j == i then None else Child(BitmapNode(bits, nodes), j)
  {
    var bits', nodes' := bits[i := false], SpliceOut(nodes, RankOf(bits, i));
    CountAfterUpdate(bits, i, false);
    forall j | 0 <= j < |bits|
      ensures Child(BitmapNode(bits', nodes'), j) == if j == i then None else Child(BitmapNode(bits, nodes), j)
    {
      RankAfterUpdate(bits, i, false, j);
      RankInRange(bits, j);
      RankInRange(bits', j);
      if j != i { RanksApart(bits, i, j); }
    }
  }

  lemma ChildTail<K, V>(b: bool, bits: seq<bool>, nodes: seq<Node<K, V>>, j: nat)
    requires j < |bits|
    requires b ==> |nodes| > 0
    ensures Child(BitmapNode([b] + bits, nodes), j + 1) == Child(BitmapNode(bits, if b then nodes[1..] else nodes), j)
  {
    assert ([b] + bits)[..j + 1][1..] == bits[..j];
  }

  lemma {:induction false} ExpandChild<K, V>(nodes: seq<Node<K, V>>, bits: seq<bool>, j: nat)
    requires Fits(bits, nodes) && j < |bits|
    ensures |Expand(nodes, bits)| == |bits|
    ensures Expand(nodes, bits)[j] == Child(BitmapNode(bits, nodes), j)
    ensures CountSome(Expand(nodes, bits)) == |nodes|
    decreases |bits|
  {
    var rest := if bits[0] then nodes[1..] else nodes;
    var e := Expand(nodes, bits);
    assert bits == [bits[0]] + bits[1..];
    assert e[1..] == Expand(rest, bits[1..]);
    ExpandLength(nodes, bits);
    if j > 0 {
      ExpandChild(rest, bits[1..], j - 1);
      ChildTail(bits[0], bits[1..], nodes, j - 1);
    } else {
      assert bits[..0] == [];
      if |bits| > 1 {
        ExpandChild(rest, bits[1..], 0);
      } else {
        assert bits[1..] == [] && Expand(rest, bits[1..]) == [];
      }
    }
  }

  lemma {:induction false} PackShape<K, V>(slots: seq<Option<Node<K, V>>>, x: int)
    ensures var (bits, nodes) := Pack(slots, x);
            && |bits| == |slots| && Fits(bits, nodes)
            && |nodes| + (if 0 <= x < |slots| && slots[x].Some? then 1 else 0) == CountSome(slots)
    decreases |slots|
  {
    if slots != [] {
      PackShape(slots[1..], x - 1);
      var (bits, nodes) := Pack(slots, x);
      assert bits[1..] == Pack(slots[1..], x - 1).0;
    }
  }

  lemma {:induction false} PackChild<K, V>(slots: seq<Option<Node<K, V>>>, x: int, j: nat)
    requires j < |slots|
    ensures var (bits, nodes) := Pack(slots, x);
            Child(BitmapNode(bits, nodes), j) == if j == x then None else slots[j]
    decreases |slots|
  {
    var (bits, nodes) := Pack(slots, x);
    var (bits', nodes') := Pack(slots[1..], x - 1);
    PackShape(slots[1..], x - 1);
    if j > 0 {
      PackChild(slots[1..], x - 1, j - 1);
      assert nodes' == if bits[0] then nodes[1..] else nodes;
      ChildTail(bits[0], bits', nodes, j - 1);
    } else {
      assert bits[..0] == [];
    }
  }

  lemma {:induction false} CountSomeAfterUpdate<T>(slots: seq<Option<T>>, i: nat, c: Option<T>)
    requires i < |slots|
    ensures CountSome(slots[i := c]) + (if slots[i].Some? then 1 else 0) == CountSome(slots) + (if c.Some? then 1 else 0)
  {
    if i > 0 {
      CountSomeAfterUpdate(slots[1..], i - 1, c);
      assert slots[i := c][1..] == slots[1..][i - 1 := c];
    } else {
      assert slots[i := c][1..] == slots[1..];
    }
  }

  // ---------------------------------------------------------------- replacing one child

  function GetIn<K(==), V>(hash: K -> Word, child: Option<Node<K, V>>, level: nat, k: K): Option<V> {
    if child.None? then None else Get(hash, child.value, level, k)
  }

  /** `after` looks up keys under digit `i` in `child`, and all others as `before` does. */
  ghost predicate RoutedTo<K(!new), V(!new)>(hash: K -> Word, before: Node<K, V>, after: Node<K, V>, path: seq<nat>,
                                             i: nat, child: Option<Node<K, V>>)
  {
    forall k: K | Agrees(hash(k), path) ::
      Get(hash, after, |path|, k)
        == if Digit(hash(k), |path|) == i then GetIn(hash, child, |path| + 1, k) else Get(hash, before, |path|, k)
  }

  ghost predicate ChildrenAre<K(!new), V(!new)>(before: Node<K, V>, after: Node<K, V>, i: nat, child: Option<Node<K, V>>) {
    forall j | 0 <= j < 32 :: Child(after, j) == if j == i then child else Child(before, j)
  }

  ghost predicate ChildFits<K(!new), V(!new)>(hash: K -> Word, node: Node<K, V>, path: seq<nat>, i: nat, child: Option<Node<K, V>>) {
    && i < 32 && !IsLeaf(node)
    && (child.Some? ==> WellFormed(hash, child.value, path + [i]))
    && (child.None? ==> Child(node, i).Some?)
    && (child.None? && node.BitmapNode? ==> |node.nodes| != 1)
  }

  lemma ChildrenGiveRouting<K(!new), V(!new)>(hash: K -> Word, before: Node<K, V>, after: Node<K, V>, path: seq<nat>,
                                             i: nat, child: Option<Node<K, V>>)
    requires !IsLeaf(before) && !IsLeaf(after) && ChildrenAre(before, after, i, child)
    ensures RoutedTo(hash, before, after, path, i, child)
  {}

  lemma ChildrenStayFormed<K(!new), V(!new)>(hash: K -> Word, before: Node<K, V>, after: Node<K, V>, path: seq<nat>,
                                            i: nat, child: Option<Node<K, V>>)
    requires WellFormed(hash, before, path) && ChildFits(hash, before, path, i, child)
    requires !IsLeaf(after) && ChildrenAre(before, after, i, child)
    ensures forall j | 0 <= j < 32 && Child(after, j).Some? :: WellFormed(hash, Child(after, j).value, path + [j])
  {
    forall j | 0 <= j < 32 && Child(after, j).Some? ensures WellFormed(hash, Child(after, j).value, path + [j]) {
      if j != i { assert Child(before, j).Some?; }
    }
  }

  /** Every child position of a bitmap is the rank of some set bit. */
  lemma {:induction false} PositionHasBit(bits: seq<bool>, p: nat) returns (i: nat)
    requires p < CountTrue(bits)
    ensures i < |bits| && bits[i] && RankOf(bits, i) == p
  {
    if bits[0] && p == 0 {
      i := 0;
      assert bits[..0] == [];
    } else {
      var i' := PositionHasBit(bits[1..], p - if bits[0] then 1 else 0);
      i := i' + 1;
      assert bits[..i][1..] == bits[1..][..i'];
    }
  }

  /** A leaf answers only for keys with its own hash. */
  lemma LeafAnswersItsHash<K(!new), V(!new)>(hash: K -> Word, leaf: Node<K, V>, path: seq<nat>, level: nat, k: K)
    requires IsLeaf(leaf) && WellFormed(hash, leaf, path)
    ensures Get(hash, leaf, level, k).Some? ==> hash(k) == leaf.hash
    ensures Get(hash, leaf, level, k) == Get(hash, leaf, 0, k)
  {
    if leaf.Collision? {
      var i := IndexOf(leaf.entries, k);
      if i < |leaf.entries| { assert leaf.entries[i] in leaf.entries; }
    }
  }

  /** A leaf may move one level up. */
  lemma LeafMovesUp<K(!new), V(!new)>(hash: K -> Word, leaf: Node<K, V>, path: seq<nat>, i: nat)
    requires IsLeaf(leaf) && WellFormed(hash, leaf, path + [i])
    ensures WellFormed(hash, leaf, path)
    ensures Digit(leaf.hash, |path|) == i
  {
    assert (path + [i])[|path|] == i;
    forall j | 0 <= j < |path| ensures Digit(leaf.hash, j) == path[j] { assert (path + [i])[j] == path[j]; }
  }

  lemma CollapseToOther<K(!new), V(!new)>(hash: K -> Word, node: Node<K, V>, path: seq<nat>, i: nat)
    requires WellFormed(hash, node, path) && node.BitmapNode? && i < 32 && node.bits[i]
    requires |node.nodes| == 2 && RankOf(node.bits, i) < 2 && IsLeaf(node.nodes[1 - RankOf(node.bits, i)])
    ensures var leaf := node.nodes[1 - RankOf(node.bits, i)];
            WellFormed(hash, leaf, path) && RoutedTo(hash, node, leaf, path, i, None)
  {
    var at := RankOf(node.bits, i);
    var leaf := node.nodes[1 - at];
    var o := PositionHasBit(node.bits, 1 - at);
    assert Child(node, o) == Some(leaf);
    LeafMovesUp(hash, leaf, path, o);
    forall k: K | Agrees(hash(k), path)
      ensures Get(hash, leaf, |path|, k)
           == if Digit(hash(k), |path|) == i then None else Get(hash, node, |path|, k)
    {
      LeafAnswersItsHash(hash, leaf, path, |path|, k);
      LeafAnswersItsHash(hash, leaf, path, |path| + 1, k);
      var d := Digit(hash(k), |path|);
      if d != i && d != o && node.bits[d] {
        RankInRange(node.bits, d);
        RanksApart(node.bits, d, i);
        RanksApart(node.bits, d, o);
        assert false;
      }
    }
  }

  lemma CollapseToOnly<K(!new), V(!new)>(hash: K -> Word, node: Node<K, V>, path: seq<nat>, i: nat, leaf: Node<K, V>)
    requires WellFormed(hash, node, path) && node.BitmapNode? && i < 32 && node.bits[i] && |node.nodes| == 1
    requires IsLeaf(leaf) && WellFormed(hash, leaf, path + [i])
    ensures WellFormed(hash, leaf, path) && RoutedTo(hash, node, leaf, path, i, Some(leaf))
  {
    LeafMovesUp(hash, leaf, path, i);
    RankInRange(node.bits, i);
    forall k: K | Agrees(hash(k), path)
      ensures Get(hash, leaf, |path|, k)
           == if Digit(hash(k), |path|) == i then Get(hash, leaf, |path| + 1, k) else Get(hash, node, |path|, k)
    {
      LeafAnswersItsHash(hash, leaf, path, |path|, k);
      LeafAnswersItsHash(hash, leaf, path, |path| + 1, k);
      var d := Digit(hash(k), |path|);
      if d != i && node.bits[d] {
        RankInRange(node.bits, d);
        RanksApart(node.bits, d, i);
        assert false;
      }
    }
  }

  lemma BitmapWithChild<K(!new), V(!new)>(hash: K -> Word, node: Node<K, V>, path: seq<nat>, i: nat, child: Option<Node<K, V>>)
    requires WellFormed(hash, node, path) && node.BitmapNode? && ChildFits(hash, node, path, i, child)
    requires node.bits[i] || |node.nodes| < MAX_BITMAP_INDEXED_SIZE
    ensures WellFormed(hash, WithChild(node, i, child), path)
    ensures RoutedTo(hash, node, WithChild(node, i, child), path, i, child)
  {
    var bits, nodes := node.bits, node.nodes;
    var after := WithChild(node, i, child);
    var at := RankOf(bits, i);
    RankInRange(bits, i);
    if bits[i] && child.None? && |nodes| == 2 && IsLeaf(nodes[1 - at]) {
      CollapseToOther(hash, node, path, i);
    } else if bits[i] && child.Some? && |nodes| == 1 && IsLeaf(child.value) {
      CollapseToOnly(hash, node, path, i, child.value);
    } else {
      if !bits[i] {
        ChildInserted(bits, nodes, i, child.value);
      } else if child.Some? {
        ChildReplaced(bits, nodes, i, child.value);
      } else {
        ChildRemoved(bits, nodes, i);
      }
      assert ChildrenAre(node, after, i, child);
      ChildrenGiveRouting(hash, node, after, path, i, child);
      ChildrenStayFormed(hash, node, after, path, i, child);
    }
  }

  lemma ExpandedWithChild<K(!new), V(!new)>(hash: K -> Word, node: Node<K, V>, path: seq<nat>, i: nat, child: Option<Node<K, V>>)
    requires WellFormed(hash, node, path) && node.BitmapNode? && ChildFits(hash, node, path, i, child)
    requires !node.bits[i] && |node.nodes| >= MAX_BITMAP_INDEXED_SIZE
    ensures WellFormed(hash, WithChild(node, i, child), path)
    ensures RoutedTo(hash, node, WithChild(node, i, child), path, i, child)
  {
    var after := WithChild(node, i, child);
    var slots := ExpandAll(node.nodes, node.bits);
    forall j | 0 <= j < 32 ensures Child(after, j) == if j == i then child else Child(node, j) {
      ExpandChild(node.nodes, node.bits, j);
    }
    ExpandChild(node.nodes, node.bits, i);
    CountSomeAfterUpdate(slots, i, child);
    ChildrenGiveRouting(hash, node, after, path, i, child);
    ChildrenStayFormed(hash, node, after, path, i, child);
  }

  lemma ArrayWithChild<K(!new), V(!new)>(hash: K -> Word, node: Node<K, V>, path: seq<nat>, i: nat, child: Option<Node<K, V>>)
    requires WellFormed(hash, node, path) && node.HashArray? && ChildFits(hash, node, path, i, child)
    ensures WellFormed(hash, WithChild(node, i, child), path)
    ensures RoutedTo(hash, node, WithChild(node, i, child), path, i, child)
  {
    var after := WithChild(node, i, child);
    CountSomeAfterUpdate(node.slots, i, child);
    if after.BitmapNode? {
      PackShape(node.slots, i);
      forall j | 0 <= j < 32 ensures Child(after, j) == if j == i then child else Child(node, j) {
        PackChild(node.slots, i, j);
      }
    } else {
      assert ChildrenAre(node, after, i, child);
    }
    ChildrenGiveRouting(hash, node, after, path, i, child);
    ChildrenStayFormed(hash, node, after, path, i, child);
  }

  lemma ReplacingAChild<K(!new), V(!new)>(hash: K -> Word, node: Node<K, V>, path: seq<nat>, i: nat, child: Option<Node<K, V>>)
    requires WellFormed(hash, node, path) && ChildFits(hash, node, path, i, child)
    ensures WellFormed(hash, WithChild(node, i, child), path)
    ensures RoutedTo(hash, node, WithChild(node, i, child), path, i, child)
  {
    if node.HashArray? {
      ArrayWithChild(hash, node, path, i, child);
    } else if node.bits[i] || |node.nodes| < MAX_BITMAP_INDEXED_SIZE {
      BitmapWithChild(hash, node, path, i, child);
    } else {
      ExpandedWithChild(hash, node, path, i, child);
    }
  }

  // ---------------------------------------------------------------- entry lists

  lemma LookupFinds<K(!new), V>(entries: seq<(K, V)>, i: nat)
    requires Distinct(entries) && i < |entries|
    ensures IndexOf(entries, entries[i].0) == i
  {}

  lemma LookupMisses<K(!new), V>(entries: seq<(K, V)>, k: K)
    ensures LookupIn(entries, k).None? <==> forall i | 0 <= i < |entries| :: entries[i].0 != k
  {}

  lemma DistinctAfterUpdate<K(!new), V>(entries: seq<(K, V)>, k: K, v: Option<V>)
    requires Distinct(entries)
    ensures Distinct(UpdatedEntries(entries, k, v))
    ensures forall e | e in UpdatedEntries(entries, k, v) :: e in entries || (v.Some? && e == (k, v.value))
    ensures |UpdatedEntries(entries, k, v)| + (if LookupIn(entries, k).Some? then 1 else 0)
         == |entries| + (if v.Some? then 1 else 0)
  {}

  lemma LookupAfterUpdate<K(!new), V>(entries: seq<(K, V)>, k: K, v: Option<V>, k': K)
    requires Distinct(entries)
    ensures LookupIn(UpdatedEntries(entries, k, v), k') == if k' == k then v else LookupIn(entries, k')
  {
    var c, after := IndexOf(entries, k), UpdatedEntries(entries, k, v);
    DistinctAfterUpdate(entries, k, v);
    var i, j := IndexOf(entries, k'), IndexOf(after, k');
    if k' == k {
      if v.Some? { LookupFinds(after, if c < |entries| then c else |entries|); }
    } else if i < |entries| {
      var last := |entries| - 1;
      LookupFinds(after, if v.None? && c < |entries| && i == last then c else i);
    }
  }

  // ---------------------------------------------------------------- what an update must do

  /** `after` answers as `before` does, except that `k` now has `v`. */
  ghost predicate Stores<K(!new), V(!new)>(hash: K -> Word, before: Option<Node<K, V>>, after: Option<Node<K, V>>,
                                          path: seq<nat>, k: K, v: Option<V>)
  {
    forall k': K | Agrees(hash(k'), path) ::
      GetIn(hash, after, |path|, k') == if k' == k then v else GetIn(hash, before, |path|, k')
  }

  /** An update of an optional node: untouched exactly when nothing had to change, flagged as resized exactly
      when `k` came or went, gone only if it was a single value. */
  ghost predicate UpdatesRightly<K(!new), V(!new)>(hash: K -> Word, before: Option<Node<K, V>>, u: Updated<Node<K, V>>,
                                                  path: seq<nat>, k: K, v: Option<V>)
  {
    match u
    case Same => GetIn(hash, before, |path|, k) == v
    case Altered(after, resized) =>
      && GetIn(hash, before, |path|, k) != v
      && resized == (GetIn(hash, before, |path|, k).None? != v.None?)
      && (after.Some? ==> WellFormed(hash, after.value, path))
      && (after.None? ==> v.None? && before.Some? && before.value.ValueNode?)
      && Stores(hash, before, after, path, k, v)
  }

  // ---------------------------------------------------------------- merging two leaves

  lemma {:induction false} NoBits(n: nat)
    ensures CountTrue(seq(n, _ => false)) == 0
  {
    if n > 0 {
      assert seq(n, _ => false)[1..] == seq(n - 1, _ => false);
      NoBits(n - 1);
    }
  }

  lemma TwoBitsRanks(i: nat, j: nat)
    requires i < 32 && j < 32
    ensures var bits := TwoBits(i, j);
            && CountTrue(bits) == (if i == j then 1 else 2)
            && (forall d | 0 <= d < 32 :: bits[d] <==> d == i || d == j)
            && (i <= j ==> RankOf(bits, i) == 0)
            && (i < j ==> RankOf(bits, j) == 1)
            && (j < i ==> RankOf(bits, j) == 0 && RankOf(bits, i) == 1)
  {
    var none := seq(32, _ => false);
    NoBits(32);
    NoBits(i);
    NoBits(j);
    assert none[..i] == seq(i, _ => false) && none[..j] == seq(j, _ => false);
    CountAfterUpdate(none, i, true);
    CountAfterUpdate(none[i := true], j, true);
    RankAfterUpdate(none, i, true, i);
    RankAfterUpdate(none, i, true, j);
    RankAfterUpdate(none[i := true], j, true, i);
    RankAfterUpdate(none[i := true], j, true, j);
  }

  /** A fresh value node under the path. */
  lemma FreshValue<K(!new), V(!new)>(hash: K -> Word, path: seq<nat>, k: K, v: V)
    requires Agrees(hash(k), path)
    ensures WellFormed(hash, ValueNode(hash(k), k, v), path)
    ensures Stores(hash, None, Some(ValueNode(hash(k), k, v)), path, k, Some(v))
  {}

  lemma LeafMovesDown<K(!new), V(!new)>(hash: K -> Word, leaf: Node<K, V>, path: seq<nat>)
    requires IsLeaf(leaf) && WellFormed(hash, leaf, path)
    ensures WellFormed(hash, leaf, path + [Digit(leaf.hash, |path|)])
  {
    AgreesExtends(leaf.hash, path);
  }

  lemma CollisionStores<K(!new), V(!new)>(hash: K -> Word, leaf: Node<K, V>, path: seq<nat>, k: K, v: V)
    requires leaf.ValueNode? && leaf.key != k && leaf.hash == hash(k) && WellFormed(hash, leaf, path)
    ensures var both := Collision(hash(k), [(leaf.key, leaf.value), (k, v)]);
            WellFormed(hash, both, path) && Stores(hash, Some(leaf), Some(both), path, k, Some(v))
  {
    var entries := [(leaf.key, leaf.value), (k, v)];
    assert entries[1..] == [(k, v)];
  }

  ghost predicate IsFork<K(!new), V(!new)>(hash: K -> Word, leaf: Node<K, V>, level: nat, k: K, v: V, fork: Node<K, V>)
    requires IsLeaf(leaf)
  {
    var was, now := Digit(leaf.hash, level), Digit(hash(k), level);
    var value := ValueNode(hash(k), k, v);
    was != now && fork == BitmapNode(TwoBits(was, now), if was < now then [leaf, value] else [value, leaf])
  }

  lemma ForkChildren<K(!new), V(!new)>(hash: K -> Word, leaf: Node<K, V>, level: nat, k: K, v: V, fork: Node<K, V>)
    requires IsLeaf(leaf) && IsFork(hash, leaf, level, k, v, fork)
    ensures |fork.bits| == 32 && CountTrue(fork.bits) == 2
    ensures forall d | 0 <= d < 32 ::
              Child(fork, d) == if d == Digit(leaf.hash, level) then Some(leaf)
                                else if d == Digit(hash(k), level) then Some(ValueNode(hash(k), k, v)) else None
  {
    TwoBitsRanks(Digit(leaf.hash, level), Digit(hash(k), level));
  }

  lemma ForkIsFormed<K(!new), V(!new)>(hash: K -> Word, leaf: Node<K, V>, path: seq<nat>, k: K, v: V, fork: Node<K, V>)
    requires IsLeaf(leaf) && WellFormed(hash, leaf, path) && Agrees(hash(k), path) && |path| < LEVELS
    requires IsFork(hash, leaf, |path|, k, v, fork)
    ensures WellFormed(hash, fork, path)
  {
    ForkChildren(hash, leaf, |path|, k, v, fork);
    LeafMovesDown(hash, leaf, path);
    AgreesExtends(hash(k), path);
    FreshValue(hash, path + [Digit(hash(k), |path|)], k, v);
  }

  /** Two leaves that differ at this level sit side by side under a bitmap. */
  lemma ForkStores<K(!new), V(!new)>(hash: K -> Word, leaf: Node<K, V>, path: seq<nat>, k: K, v: V, fork: Node<K, V>)
    requires IsLeaf(leaf) && WellFormed(hash, leaf, path)
    requires IsFork(hash, leaf, |path|, k, v, fork)
    ensures Stores(hash, Some(leaf), Some(fork), path, k, Some(v))
  {
    ForkChildren(hash, leaf, |path|, k, v, fork);
    forall k': K | Agrees(hash(k'), path)
      ensures Get(hash, fork, |path|, k') == if k' == k then Some(v) else Get(hash, leaf, |path|, k')
    {
      LeafAnswersItsHash(hash, leaf, path, |path|, k');
      LeafAnswersItsHash(hash, leaf, path, |path| + 1, k');
    }
  }

  /** Two leaves that agree at this level are merged one level down. */
  lemma ChainStores<K(!new), V(!new)>(hash: K -> Word, leaf: Node<K, V>, path: seq<nat>, k: K, v: V, inner: Node<K, V>)
    requires IsLeaf(leaf) && WellFormed(hash, leaf, path) && Agrees(hash(k), path) && |path| < LEVELS
    requires Digit(leaf.hash, |path|) == Digit(hash(k), |path|)
    requires var deeper := path + [Digit(hash(k), |path|)];
             && !IsLeaf(inner) && WellFormed(hash, inner, deeper)
             && Stores(hash, Some(leaf), Some(inner), deeper, k, Some(v))
    ensures var d := Digit(hash(k), |path|);
            var chain := BitmapNode(TwoBits(d, d), [inner]);
            WellFormed(hash, chain, path) && Stores(hash, Some(leaf), Some(chain), path, k, Some(v))
  {
    var d := Digit(hash(k), |path|);
    var chain := BitmapNode(TwoBits(d, d), [inner]);
    TwoBitsRanks(d, d);
    assert Child(chain, d) == Some(inner);
    forall k': K | Agrees(hash(k'), path)
      ensures Get(hash, chain, |path|, k') == if k' == k then Some(v) else Get(hash, leaf, |path|, k')
    {
      LeafAnswersItsHash(hash, leaf, path, |path|, k');
      LeafAnswersItsHash(hash, leaf, path, |path| + 1, k');
      AgreesExtends(hash(k'), path);
    }
  }

  lemma MergeForks<K(!new), V(!new)>(hash: K -> Word, leaf: Node<K, V>, path: seq<nat>, k: K, v: V)
    requires IsLeaf(leaf) && WellFormed(hash, leaf, path) && Agrees(hash(k), path) && |path| < LEVELS
    requires Digit(leaf.hash, |path|) != Digit(hash(k), |path|)
    ensures WellFormed(hash, Merge(leaf, |path|, hash(k), k, v), path)
    ensures Stores(hash, Some(leaf), Some(Merge(leaf, |path|, hash(k), k, v)), path, k, Some(v))
  {
    var fork := Merge(leaf, |path|, hash(k), k, v);
    ForkIsFormed(hash, leaf, path, k, v, fork);
    ForkStores(hash, leaf, path, k, v, fork);
  }

  lemma {:induction false} MergeStores<K(!new), V(!new)>(hash: K -> Word, leaf: Node<K, V>, path: seq<nat>, k: K, v: V)
    requires IsLeaf(leaf) && WellFormed(hash, leaf, path) && Agrees(hash(k), path)
    requires leaf.hash == hash(k) ==> leaf.ValueNode? && leaf.key != k
    requires leaf.hash != hash(k) ==> exists j | |path| <= j < LEVELS :: Digit(leaf.hash, j) != Digit(hash(k), j)
    ensures WellFormed(hash, Merge(leaf, |path|, hash(k), k, v), path)
    ensures Stores(hash, Some(leaf), Some(Merge(leaf, |path|, hash(k), k, v)), path, k, Some(v))
    decreases LEVELS - |path|
  {
    if leaf.hash == hash(k) {
      CollisionStores(hash, leaf, path, k, v);
    } else if Digit(leaf.hash, |path|) != Digit(hash(k), |path|) {
      MergeForks(hash, leaf, path, k, v);
    } else {
      var deeper := path + [Digit(hash(k), |path|)];
      LeafMovesDown(hash, leaf, path);
      AgreesExtends(hash(k), path);
      MergeStores(hash, leaf, deeper, k, v);
      ChainStores(hash, leaf, path, k, v, Merge(leaf, |path| + 1, hash(k), k, v));
    }
  }

  // ---------------------------------------------------------------- updating a tree

  lemma UpdateValue<K(!new), V(!new)>(hash: K -> Word, node: Node<K, V>, path: seq<nat>, k: K, v: Option<V>)
    requires node.ValueNode? && WellFormed(hash, node, path) && Agrees(hash(k), path)
    ensures UpdatesRightly(hash, Some(node), UpdateTree(hash, node, |path|, path, k, v), path, k, v)
  {
    if node.key != k && v.Some? {
      MergeApplies(hash, node, path, k);
      MergeStores(hash, node, path, k, v.value);
    }
  }

  lemma TwoEntries<K(!new), V>(entries: seq<(K, V)>, k: K, k': K)
    requires Distinct(entries) && |entries| == 2 && IndexOf(entries, k) < 2
    ensures var other := entries[1 - IndexOf(entries, k)];
            (if k' == k then None else LookupIn(entries, k')) == if k' == other.0 then Some(other.1) else None
  {
    var c := IndexOf(entries, k);
    LookupFinds(entries, 1 - c);
    LookupMisses(entries, k');
  }

  lemma UpdateCollision<K(!new), V(!new)>(hash: K -> Word, node: Node<K, V>, path: seq<nat>, k: K, v: Option<V>)
    requires node.Collision? && WellFormed(hash, node, path) && Agrees(hash(k), path)
    ensures UpdatesRightly(hash, Some(node), UpdateTree(hash, node, |path|, path, k, v), path, k, v)
  {
    var entries := node.entries;
    LeafAnswersItsHash(hash, node, path, |path|, k);
    if hash(k) != node.hash {
      if v.Some? {
        MergeApplies(hash, node, path, k);
        MergeStores(hash, node, path, k, v.value);
      }
    } else {
      DistinctAfterUpdate(entries, k, v);
      forall k' ensures LookupIn(UpdatedEntries(entries, k, v), k') == if k' == k then v else LookupIn(entries, k') {
        LookupAfterUpdate(entries, k, v, k');
      }
      if v.None? && |entries| == 2 && IndexOf(entries, k) < 2 {
        assert entries[1 - IndexOf(entries, k)] in entries;
        forall k' { TwoEntries(entries, k, k'); }
      }
    }
  }

  lemma ChangedChildFits<K(!new), V(!new)>(hash: K -> Word, node: Node<K, V>, path: seq<nat>, k: K, v: Option<V>,
                                          i: nat, u: Updated<Node<K, V>>)
    requires !IsLeaf(node) && WellFormed(hash, node, path) && i < 32
    requires UpdatesRightly(hash, Child(node, i), u, path + [i], k, v) && u.Altered?
    ensures ChildFits(hash, node, path, i, u.node)
  {
    if u.node.None? && node.BitmapNode? && |node.nodes| == 1 {
      RankInRange(node.bits, i);
      assert false;
    }
  }

  lemma RoutingStores<K(!new), V(!new)>(hash: K -> Word, node: Node<K, V>, after: Node<K, V>, path: seq<nat>, k: K, v: Option<V>,
                                       child: Option<Node<K, V>>)
    requires !IsLeaf(node) && Agrees(hash(k), path)
    requires RoutedTo(hash, node, after, path, Digit(hash(k), |path|), child)
    requires Stores(hash, Child(node, Digit(hash(k), |path|)), child, path + [Digit(hash(k), |path|)], k, v)
    ensures Stores(hash, Some(node), Some(after), path, k, v)
  {
    forall k': K | Agrees(hash(k'), path)
      ensures Get(hash, after, |path|, k') == if k' == k then v else Get(hash, node, |path|, k')
    {
      AgreesExtends(hash(k'), path);
    }
  }

  lemma UpdateBranch<K(!new), V(!new)>(hash: K -> Word, node: Node<K, V>, path: seq<nat>, k: K, v: Option<V>, u: Updated<Node<K, V>>)
    requires !IsLeaf(node) && WellFormed(hash, node, path) && Agrees(hash(k), path)
    requires UpdatesRightly(hash, Child(node, Digit(hash(k), |path|)), u, path + [Digit(hash(k), |path|)], k, v)
    requires u.Altered?
    ensures ChildFits(hash, node, path, Digit(hash(k), |path|), u.node)
    ensures UpdatesRightly(hash, Some(node), Altered(Some(WithChild(node, Digit(hash(k), |path|), u.node)), u.resized), path, k, v)
  {
    var i := Digit(hash(k), |path|);
    ChangedChildFits(hash, node, path, k, v, i, u);
    ReplacingAChild(hash, node, path, i, u.node);
    RoutingStores(hash, node, WithChild(node, i, u.node), path, k, v, u.node);
  }

  /** The update of a well-formed tree stores or removes its key and touches nothing else. */
  lemma {:induction false} UpdateTreeIsRight<K(!new), V(!new)>(hash: K -> Word, node: Node<K, V>, path: seq<nat>, k: K, v: Option<V>)
    requires WellFormed(hash, node, path) && Agrees(hash(k), path)
    ensures UpdatesRightly(hash, Some(node), UpdateTree(hash, node, |path|, path, k, v), path, k, v)
    decreases node
  {
    if node.ValueNode? {
      UpdateValue(hash, node, path, k, v);
    } else if node.Collision? {
      UpdateCollision(hash, node, path, k, v);
    } else {
      var i := Digit(hash(k), |path|);
      var deeper := path + [i];
      var child := Child(node, i);
      AgreesExtends(hash(k), path);
      var u;
      if child.Some? {
        UpdateTreeIsRight(hash, child.value, deeper, k, v);
        u := UpdateTree(hash, child.value, |path| + 1, deeper, k, v);
      } else if v.None? {
        u := Same;
      } else {
        FreshValue(hash, deeper, k, v.value);
        u := Altered(Some(ValueNode(hash(k), k, v.value)), true);
      }
      if u.Altered? { UpdateBranch(hash, node, path, k, v, u); }
    }
  }
}
