/** The persistent hash-trie map: array, bitmap, full-array, collision and value nodes, as the bundled
    collection library grows and collapses them.  Keys are compared with `==`, and `hash` is any function of
    the key into 32-bit words, so that equal keys hash alike.  A bitmap word is kept as its 32 bits; module
    BitCount shows that the word operations of the program test, set, clear and rank those bits. */
module HashTrie {
  import opened Prelude
  import opened BitCount

  const MAX_ARRAY_MAP_SIZE := 8
  const MAX_BITMAP_INDEXED_SIZE := 16
  const MIN_HASH_ARRAY_MAP_SIZE := 8

  /** The number of 5-bit digits in a 32-bit hash. */
  const LEVELS := 7

  datatype Node<K, V> =
    | BitmapNode(bits: seq<bool>, nodes: seq<Node<K, V>>)
    | HashArray(count: nat, slots: seq<Option<Node<K, V>>>)
    | Collision(hash: Word, entries: seq<(K, V)>)
    | ValueNode(hash: Word, key: K, value: V)

  datatype Root<K, V> = Empty | ArrayMap(entries: seq<(K, V)>) | Tree(node: Node<K, V>)

  datatype HashMap<K, V> = HashMap(size: int, root: Root<K, V>)

  /** What an update returns: the node itself, untouched, or another node or none, with the flag telling
      whether the number of keys changed. */
  datatype Updated<T> = Same | Altered(node: Option<T>, resized: bool)

  // ---------------------------------------------------------------- entry lists

  function IndexOf<K(==), V>(entries: seq<(K, V)>, k: K): (i: nat)
    ensures i <= |entries|
    ensures i < |entries| ==> entries[i].0 == k
    ensures forall j | 0 <= j < i :: entries[j].0 != k
  {
    if entries == [] then 0
    else if entries[0].0 == k then 0
    else
      var i := IndexOf(entries[1..], k);
      assert forall j | 0 < j < i + 1 :: entries[j].0 == entries[1..][j - 1].0;
      i + 1
  }

  function LookupIn<K(==), V>(entries: seq<(K, V)>, k: K): Option<V> {
    var i := IndexOf(entries, k);
    if i < |entries| then Some(entries[i].1) else None
  }

  /** Drop entry `c` by moving the last entry into its place. */
  function SwapRemove<T>(entries: seq<T>, c: nat): seq<T>
    requires c < |entries|
  {
    var last := |entries| - 1;
    if c == last then entries[..last] else entries[..last][c := entries[last]]
  }

  /** The list after storing `v` under `k`, or removing `k`. */
  function UpdatedEntries<K(==), V>(entries: seq<(K, V)>, k: K, v: Option<V>): seq<(K, V)> {
    var c := IndexOf(entries, k);
    if c < |entries| then
      if v.None? then SwapRemove(entries, c) else entries[c := (k, v.value)]
    else if v.None? then entries else entries + [(k, v.value)]
  }

  // ---------------------------------------------------------------- nodes

  /** `hash >>> 5 * level & 31` */
  function Digit(hash: nat, level: nat): (d: nat)
    ensures d < 32
  {
    if level == 0 then hash % 32 else Digit(hash / 32, level - 1)
  }

  predicate IsLeaf<K, V>(node: Node<K, V>) { node.ValueNode? || node.Collision? }

  /** The index, among the children of a bitmap node, of the child under digit `i`. */
  function RankOf(bits: seq<bool>, i: nat): nat
    requires i < |bits|
  {
    CountTrue(bits[..i])
  }

  /** The child under digit `i`, if there is one.  In the nodes the program builds every index used here is
      in range (`WellFormed`). */
  function Child<K, V>(node: Node<K, V>, i: nat): (c: Option<Node<K, V>>)
    ensures c.Some? ==> c.value < node
  {
    match node
    case BitmapNode(bits, nodes) =>
      if i < |bits| && bits[i] && RankOf(bits, i) < |nodes| then Some(nodes[RankOf(bits, i)]) else None
    case HashArray(_, slots) =>
      if i < |slots| && slots[i].Some? then Some(slots[i].value) else None
    case _ => None
  }

  function Get<K(==), V>(hash: K -> Word, node: Node<K, V>, level: nat, k: K): Option<V>
    decreases node
  {
    match node
    case ValueNode(_, key, value) => if key == k then Some(value) else None
    case Collision(_, entries) => LookupIn(entries, k)
    case _ =>
      var child := Child(node, Digit(hash(k), level));
      if child.Some? then Get(hash, child.value, level + 1, k) else None
  }

  // ---------------------------------------------------------------- update

  /** `1 << i | 1 << j` */
  function TwoBits(i: nat, j: nat): seq<bool>
    requires i < 32 && j < 32
  {
    seq(32, _ => false)[i := true][j := true]
  }

  /** Two leaves with different hashes first differ at some digit; grow bitmap nodes down to it. */
  function Merge<K, V>(leaf: Node<K, V>, level: nat, hash: Word, k: K, v: V): Node<K, V>
    requires IsLeaf(leaf) && (leaf.hash == hash ==> leaf.ValueNode?)
    requires leaf.hash != hash ==> exists j | level <= j < LEVELS :: Digit(leaf.hash, j) != Digit(hash, j)
    decreases LEVELS - level
  {
    if leaf.hash == hash then Collision(hash, [(leaf.key, leaf.value), (k, v)])
    else
      var was, now := Digit(leaf.hash, level), Digit(hash, level);
      var bits := TwoBits(was, now);
      if was == now then BitmapNode(bits, [Merge(leaf, level + 1, hash, k, v)])
      else if was < now then BitmapNode(bits, [leaf, ValueNode(hash, k, v)])
      else BitmapNode(bits, [ValueNode(hash, k, v), leaf])
  }

  function SpliceIn<T>(nodes: seq<T>, at: nat, node: T): seq<T>
    requires at <= |nodes|
  {
    nodes[..at] + [node] + nodes[at..]
  }

  function SpliceOut<T>(nodes: seq<T>, at: nat): seq<T>
    requires at < |nodes|
  {
    nodes[..at] + nodes[at + 1..]
  }

  /** Spread the children of a bitmap over 32 slots. */
  function Expand<K, V>(nodes: seq<Node<K, V>>, bits: seq<bool>): seq<Option<Node<K, V>>>
    requires |nodes| == CountTrue(bits)
    decreases |bits|
  {
    if bits == [] then []
    else if bits[0] then [Some(nodes[0])] + Expand(nodes[1..], bits[1..])
    else [None] + Expand(nodes, bits[1..])
  }

  /** Gather the occupied slots, leaving out slot `excluding`. */
  function Pack<K, V>(slots: seq<Option<Node<K, V>>>, excluding: int): (seq<bool>, seq<Node<K, V>>)
    decreases |slots|
  {
    if slots == [] then ([], [])
    else
      var (bits, nodes) := Pack(slots[1..], excluding - 1);
      if slots[0].Some? && excluding != 0 then ([true] + bits, [slots[0].value] + nodes)
      else ([false] + bits, nodes)
  }

  function CountSome<T>(slots: seq<Option<T>>): nat {
    if slots == [] then 0 else (if slots[0].Some? then 1 else 0) + CountSome(slots[1..])
  }

  // ---------------------------------------------------------------- well-formed nodes

  ghost predicate Agrees(hash: nat, path: seq<nat>) {
    forall j | 0 <= j < |path| :: Digit(hash, j) == path[j]
  }

  ghost predicate Distinct<K(!new), V>(entries: seq<(K, V)>) {
    forall i, j | 0 <= i < j < |entries| :: entries[i].0 != entries[j].0
  }

  /** The invariant of a node reached by the digits `path`: hashes agree with the path, a bitmap has one
      child per set bit and between 1 and 16 of them, an only child is never a leaf, a full array counts its
      occupied slots and keeps at least 8. */
  ghost predicate WellFormed<K(!new), V(!new)>(hash: K -> Word, node: Node<K, V>, path: seq<nat>)
    decreases node
  {
    match node
    case ValueNode(h, key, _) => h == hash(key) && Agrees(h, path)
    case Collision(h, entries) =>
      |entries| >= 2 && Distinct(entries) && (forall e | e in entries :: hash(e.0) == h) && Agrees(h, path)
    case BitmapNode(bits, nodes) =>
      && |path| < LEVELS && |bits| == 32 && |nodes| == CountTrue(bits) && 1 <= |nodes| <= MAX_BITMAP_INDEXED_SIZE
      && (|nodes| == 1 ==> !IsLeaf(nodes[0]))
      && forall i | 0 <= i < 32 && Child(node, i).Some? :: WellFormed(hash, Child(node, i).value, path + [i])
    case HashArray(count, slots) =>
      && |path| < LEVELS && |slots| == 32 && count == CountSome(slots) && count >= MIN_HASH_ARRAY_MAP_SIZE
      && forall i | 0 <= i < 32 && Child(node, i).Some? :: WellFormed(hash, Child(node, i).value, path + [i])
  }

  lemma {:induction false} RankInRange(bits: seq<bool>, i: nat)
    requires i < |bits|
    ensures RankOf(bits, i) + (if bits[i] then 1 else 0) <= CountTrue(bits)
  {
    if i > 0 {
      RankInRange(bits[1..], i - 1);
      assert bits[..i][1..] == bits[1..][..i - 1];
    }
  }

  /** Different hashes differ at some digit. */
  lemma {:induction false} DigitsDiffer(x: nat, y: nat, n: nat)
    requires x != y && x < Pow(32, n) && y < Pow(32, n)
    ensures exists j | 0 <= j < n :: Digit(x, j) != Digit(y, j)
  {
    if n > 0 {
      if x % 32 != y % 32 {
        assert Digit(x, 0) != Digit(y, 0);
      } else {
        DigitsDiffer(x / 32, y / 32, n - 1);
        var j :| 0 <= j < n - 1 && Digit(x / 32, j) != Digit(y / 32, j);
        assert Digit(x, j + 1) != Digit(y, j + 1);
      }
    }
  }

  lemma {:induction false} HashesDiverge(x: Word, y: Word, path: seq<nat>)
    requires x != y && Agrees(x, path) && Agrees(y, path)
    ensures exists j | |path| <= j < LEVELS :: Digit(x, j) != Digit(y, j)
  {
    assert Pow(32, 4) == 0x10_0000;
    assert Pow(32, 7) == 0x8_0000_0000;
    DigitsDiffer(x, y, LEVELS);
    var j :| 0 <= j < LEVELS && Digit(x, j) != Digit(y, j);
    assert j >= |path|;
  }

  // ---------------------------------------------------------------- update, on trees

  /** Store `v` under `k` below `node`, or remove `k` when `v` is absent. */
  function UpdateTree<K(==, !new), V(==, !new)>(hash: K -> Word, node: Node<K, V>, level: nat, ghost path: seq<nat>,
                                               k: K, v: Option<V>): Updated<Node<K, V>>
    requires level == |path| && WellFormed(hash, node, path) && Agrees(hash(k), path)
    decreases node
  {
    match node
    case ValueNode(h, key, value) =>
      if (if key == k then Some(value) == v else v.None?) then Same
      else if v.None? then Altered(None, true)
      else if key == k then Altered(Some(ValueNode(h, k, v.value)), false)
      else
        MergeApplies(hash, node, path, k);
        Altered(Some(Merge(node, level, hash(k), k, v.value)), true)
    case Collision(h, entries) =>
      if hash(k) != h then
        if v.None? then Same
        else
          MergeApplies(hash, node, path, k);
          Altered(Some(Merge(node, level, hash(k), k, v.value)), true)
      else
        var c := IndexOf(entries, k);
        var found := c < |entries|;
        if (if found then Some(entries[c].1) == v else v.None?) then Same
        else if v.None? && |entries| == 2 then
          Altered(Some(ValueNode(h, entries[1 - c].0, entries[1 - c].1)), true)
        else Altered(Some(Collision(h, UpdatedEntries(entries, k, v))), v.None? || !found)
    case _ =>
      var i := Digit(hash(k), level);
      AgreesExtends(hash(k), path);
      var child := Child(node, i);
      var updated :=
        if child.Some? then UpdateTree(hash, child.value, level + 1, path + [i], k, v)
        else if v.None? then Same
        else Altered(Some(ValueNode(hash(k), k, v.value)), true);
      if updated.Same? then Same
      else Altered(Some(WithChild(node, i, updated.node)), updated.resized)
  }

  lemma AgreesExtends(hash: nat, path: seq<nat>)
    requires Agrees(hash, path)
    ensures Agrees(hash, path + [Digit(hash, |path|)])
  {}

  lemma MergeApplies<K(!new), V(!new)>(hash: K -> Word, leaf: Node<K, V>, path: seq<nat>, k: K)
    requires IsLeaf(leaf) && WellFormed(hash, leaf, path) && Agrees(hash(k), path)
    ensures leaf.hash != hash(k) ==> exists j | |path| <= j < LEVELS :: Digit(leaf.hash, j) != Digit(hash(k), j)
  {
    if leaf.hash != hash(k) { HashesDiverge(leaf.hash, hash(k), path); }
  }

  /** A bitmap or array node after its child under digit `i` has become `child`: an absent child may be
      added, a present one replaced or removed.  Bitmaps turn into arrays beyond 16 children, collapse to
      their only remaining leaf, and arrays turn back into bitmaps below 8. */
  function WithChild<K, V>(node: Node<K, V>, i: nat, child: Option<Node<K, V>>): Node<K, V>
    requires i < 32 && !IsLeaf(node)
    requires node.BitmapNode? ==> |node.bits| == 32 && |node.nodes| == CountTrue(node.bits)
    requires node.HashArray? ==> |node.slots| == 32 && CountSome(node.slots) == node.count
    requires child.None? ==> Child(node, i).Some?
    requires child.None? && node.BitmapNode? ==> |node.nodes| != 1
  {
    match node
    case BitmapNode(bits, nodes) =>
      var at, present := RankOf(bits, i), bits[i];
      RankInRange(bits, i);
      if !present && child.Some? && |nodes| >= MAX_BITMAP_INDEXED_SIZE then
        HashArray(|nodes| + 1, ExpandAll(nodes, bits)[i := child])
      else if present && child.None? && |nodes| == 2 && IsLeaf(nodes[1 - at]) then nodes[1 - at]
      else if present && child.Some? && |nodes| == 1 && IsLeaf(child.value) then child.value
      else if !present then BitmapNode(bits[i := true], SpliceIn(nodes, at, child.value))
      else if child.Some? then BitmapNode(bits, nodes[at := child.value])
      else BitmapNode(bits[i := false], SpliceOut(nodes, at))
    case HashArray(count, slots) =>
      if slots[i].Some? && child.None? && count - 1 < MIN_HASH_ARRAY_MAP_SIZE then
        var (bits, nodes) := Pack(slots, i);
        BitmapNode(bits, nodes)
      else
        OccupiedCounts(slots, i);
        HashArray(count + (if slots[i].Some? then 0 else 1) - (if child.Some? then 0 else 1), slots[i := child])
  }

  lemma {:induction false} OccupiedCounts<T>(slots: seq<Option<T>>, i: nat)
    requires i < |slots|
    ensures slots[i].Some? ==> CountSome(slots) > 0
  {
    if i > 0 { OccupiedCounts(slots[1..], i - 1); }
  }

  lemma {:induction false} ExpandLength<K, V>(nodes: seq<Node<K, V>>, bits: seq<bool>)
    requires |nodes| == CountTrue(bits)
    ensures |Expand(nodes, bits)| == |bits|
    decreases |bits|
  {
    if bits != [] { ExpandLength(if bits[0] then nodes[1..] else nodes, bits[1..]); }
  }

  function ExpandAll<K, V>(nodes: seq<Node<K, V>>, bits: seq<bool>): (slots: seq<Option<Node<K, V>>>)
    requires |nodes| == CountTrue(bits)
    ensures |slots| == |bits|
  {
    ExpandLength(nodes, bits);
    Expand(nodes, bits)
  }
}
