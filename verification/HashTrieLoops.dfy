/** The loops of the hash trie in the program's form: searches, and the arrays that are filled when a node's
    children are copied, spread over 32 slots or packed again.  Each is proved equal to the function that
    specifies it in the trie. */
module HashTrieLoops {
  import opened Prelude
  import opened BitCount
  import opened HashTrie
  import opened HashTrieProofs
  import opened HashTrieMap

  /** The search of an entry list. */
  method FindEntry<K(==), V>(entries: seq<(K, V)>, k: K) returns (c: nat)
    ensures c == IndexOf(entries, k)
  {
    c := 0;
    while c < |entries| && entries[c].0 != k
      invariant c <= |entries| && c + IndexOf(entries[c..], k) == IndexOf(entries, k)
    {
      assert entries[c..][1..] == entries[c + 1..];
      c := c + 1;
    }
  }

  /** A copy of an entry list with one key stored or removed; removal moves the last entry into the gap. */
  method ChangeEntries<K(==), V>(entries: seq<(K, V)>, k: K, v: Option<V>) returns (h: seq<(K, V)>)
    ensures h == UpdatedEntries(entries, k, v)
  {
    var c := FindEntry(entries, k);
    h := entries;
    if c < |entries| {
      if v.None? {
        var last := h[|h| - 1];
        h := h[..|h| - 1];
        if c < |h| {
          h := h[c := last];
        }
      } else {
        h := h[c := (k, v.value)];
      }
    } else if v.Some? {
      h := h + [(k, v.value)];
    }
  }

  /** The copy of an array with one more element. */
  method SpliceInArray<T(0)>(nodes: array<T>, at: nat, node: T) returns (o: array<T>)
    requires at <= nodes.Length
    ensures fresh(o) && o[..] == SpliceIn(nodes[..], at, node)
  {
    o := new T[nodes.Length + 1];
    var after := 0;
    for a := 0 to o.Length
      invariant after == if a <= at then 0 else -1
      invariant forall j | 0 <= j < a :: o[j] == SpliceIn(nodes[..], at, node)[j]
    {
      if a == at {
        o[a] := node;
        after := -1;
      } else {
        o[a] := nodes[a + after];
      }
    }
  }

  /** The copy of an array with one element fewer. */
  method SpliceOutArray<T(0)>(nodes: array<T>, at: nat) returns (o: array<T>)
    requires at < nodes.Length
    ensures fresh(o) && o[..] == SpliceOut(nodes[..], at)
  {
    o := new T[nodes.Length - 1];
    var after := 0;
    for a := 0 to o.Length
      invariant after == if a <= at then 0 else 1
      invariant forall j | 0 <= j < a :: o[j] == SpliceOut(nodes[..], at)[j]
    {
      if a == at {
        after := 1;
      }
      o[a] := nodes[a + after];
    }
  }

  // ---------------------------------------------------------------- spreading children

  /** The bits of a word from its first one on. */
  lemma FirstBit(n: nat, m: nat)
    requires m > 0
    ensures Bits(n, m)[0] == (n % 2 == 1) && Bits(n, m)[1..] == Bits(n / 2, m - 1)
  {}

  function Nothing<K, V>(m: nat): (s: seq<Option<Node<K, V>>>)
    ensures |s| == m && forall i | 0 <= i < m :: s[i] == None
  {
    seq(m, _ => None)
  }

  lemma {:induction false} NoBitsLeft<K, V>(m: nat)
    ensures CountTrue(Bits(0, m)) == 0
    ensures Expand<K, V>([], Bits(0, m)) == Nothing(m)
    decreases m
  {
    if m > 0 {
      FirstBit(0, m);
      NoBitsLeft<K, V>(m - 1);
      assert [None] + Nothing<K, V>(m - 1) == Nothing(m);
    }
  }

  /** One turn of the loop. */
  lemma ExpandStep<K, V>(nodes: seq<Node<K, V>>, n: nat, m: nat)
    requires m > 0 && |nodes| == CountTrue(Bits(n, m))
    ensures n % 2 == 1 ==> nodes != [] && |nodes[1..]| == CountTrue(Bits(n / 2, m - 1))
                           && Expand(nodes, Bits(n, m)) == [Some(nodes[0])] + Expand(nodes[1..], Bits(n / 2, m - 1))
    ensures n % 2 == 0 ==> |nodes| == CountTrue(Bits(n / 2, m - 1))
                           && Expand(nodes, Bits(n, m)) == [None] + Expand(nodes, Bits(n / 2, m - 1))
  {
    FirstBit(n, m);
  }

  lemma HalfIsSmaller(n: nat, m: nat)
    requires m > 0 && n < Pow(2, m)
    ensures n / 2 < Pow(2, m - 1)
  {}

  lemma Zero(n: nat)
    requires n < Pow(2, 0)
    ensures n == 0
  {}

  /** The slots filled so far, and what the remaining bits of the bitmap call for. */
  ghost predicate Spreading<K, V>(whole: seq<Option<Node<K, V>>>, done: seq<Option<Node<K, V>>>, rest: seq<Node<K, V>>, n: nat) {
    && |done| <= 32 && n < Pow(2, 32 - |done|)
    && |rest| == CountTrue(Bits(n, 32 - |done|))
    && whole == done + Expand(rest, Bits(n, 32 - |done|))
  }

  lemma SpreadingStep<K, V>(whole: seq<Option<Node<K, V>>>, done: seq<Option<Node<K, V>>>, rest: seq<Node<K, V>>, n: nat)
    requires Spreading(whole, done, rest, n) && n != 0
    ensures |done| < 32
    ensures n % 2 == 1 ==> rest != [] && Spreading(whole, done + [Some(rest[0])], rest[1..], n / 2)
    ensures n % 2 == 0 ==> Spreading(whole, done + [None], rest, n / 2)
  {
    if |done| == 32 { Zero(n); }
    ExpandStep(rest, n, 32 - |done|);
    HalfIsSmaller(n, 32 - |done|);
  }

  lemma SpreadingEnds<K, V>(whole: seq<Option<Node<K, V>>>, done: seq<Option<Node<K, V>>>, rest: seq<Node<K, V>>)
    requires Spreading(whole, done, rest, 0)
    ensures rest == [] && whole == done + Nothing(32 - |done|)
  {
    NoBitsLeft<K, V>(32 - |done|);
  }

  /** The children of a bitmap node are spread over 32 slots, until no bit of the bitmap is left. */
  method Spread<K, V>(nodes: seq<Node<K, V>>, bitmap: Word) returns (slots: array<Option<Node<K, V>>>, o: nat)
    requires |nodes| == CountTrue(Bits(bitmap, 32))
    ensures fresh(slots) && slots.Length == 32 && o == |nodes|
    ensures slots[..] == Expand(nodes, Bits(bitmap, 32))
  {
    slots := new Option<Node<K, V>>[32](_ => None);
    ghost var whole := Expand(nodes, Bits(bitmap, 32));
    o := 0;
    var a, n: nat := 0, bitmap;
    PowWord();
    while n != 0
      invariant a <= 32 && o <= |nodes|
      invariant Spreading(whole, slots[..a], nodes[o..], n)
      invariant forall j | a <= j < 32 :: slots[j] == None
      decreases n
    {
      ghost var done := slots[..a];
      SpreadingStep(whole, done, nodes[o..], n);
      if n % 2 == 1 {
        slots[a] := Some(nodes[o]);
        assert nodes[o..][1..] == nodes[o + 1..];
        o := o + 1;
      }
      assert slots[..a + 1] == done + [slots[a]];
      n, a := n / 2, a + 1;
    }
    SpreadingEnds(whole, slots[..a], nodes[o..]);
    assert slots[..] == slots[..a] + Nothing(32 - a);
  }

  /** An overfull bitmap node becomes a full-array node with one child more. */
  method ExpandNodes<K, V>(nodes: seq<Node<K, V>>, bitmap: Word, at: nat, child: Option<Node<K, V>>) returns (node: Node<K, V>)
    requires |nodes| == CountTrue(Bits(bitmap, 32)) && at < 32
    ensures |Expand(nodes, Bits(bitmap, 32))| == 32
    ensures node == HashArray(|nodes| + 1, Expand(nodes, Bits(bitmap, 32))[at := child])
  {
    var slots, o := Spread(nodes, bitmap);
    ghost var spread := slots[..];
    slots[at] := child;
    assert slots[..] == spread[at := child];
    node := HashArray(o + 1, slots[..]);
  }

  // ---------------------------------------------------------------- packing children

  lemma {:induction false} PackExtends<K, V>(slots: seq<Option<Node<K, V>>>, slot: Option<Node<K, V>>, excluding: int)
    ensures var (bits, nodes) := Pack(slots, excluding);
            Pack(slots + [slot], excluding) ==
            if slot.Some? && excluding != |slots| then (bits + [true], nodes + [slot.value]) else (bits + [false], nodes)
    decreases |slots|
  {
    if slots == [] {
      assert slots + [slot] == [slot];
      var noBits: seq<bool>, noNodes: seq<Node<K, V>> := [], [];
      assert Pack([slot][1..], excluding - 1) == (noBits, noNodes);
      assert [true] + noBits == noBits + [true] && [false] + noBits == noBits + [false];
      if slot.Some? { assert [slot.value] + noNodes == noNodes + [slot.value]; }
    } else {
      var (bits, nodes) := Pack(slots[1..], excluding - 1);
      assert (slots + [slot])[0] == slots[0] && (slots + [slot])[1..] == slots[1..] + [slot];
      PackExtends(slots[1..], slot, excluding - 1);
      var b := slots[0].Some? && excluding != 0;
      assert forall c :: [b] + (bits + [c]) == ([b] + bits) + [c];
      if b && slot.Some? { assert [slots[0].value] + (nodes + [slot.value]) == ([slots[0].value] + nodes) + [slot.value]; }
    }
  }

  lemma {:induction false} PackLength<K, V>(slots: seq<Option<Node<K, V>>>, excluding: int)
    ensures |Pack(slots, excluding).0| == |slots|
    decreases |slots|
  {
    if slots != [] { PackLength(slots[1..], excluding - 1); }
  }

  lemma {:induction false} ClearBitOnTop(bits: seq<bool>)
    ensures Num(bits + [false]) == Num(bits)
  {
    if bits != [] {
      assert (bits + [false])[1..] == bits[1..] + [false];
      ClearBitOnTop(bits[1..]);
    }
  }

  lemma SetBitOnTop(bits: seq<bool>)
    ensures Or(Num(bits), Pow(2, |bits|)) == Num(bits + [true])
  {
    ClearBitOnTop(bits);
    OrSets(bits + [false], |bits|);
    assert (bits + [false])[|bits| := true] == bits + [true];
  }

  lemma {:induction false} PackGrows<K, V>(slots: seq<Option<Node<K, V>>>, n: nat, excluding: int)
    requires n <= |slots|
    ensures |Pack(slots[..n], excluding).1| <= |Pack(slots, excluding).1|
    ensures forall i | 0 <= i < |Pack(slots[..n], excluding).1| :: Pack(slots, excluding).1[i] == Pack(slots[..n], excluding).1[i]
    decreases |slots| - n
  {
    if n < |slots| {
      PackExtends(slots[..n], slots[n], excluding);
      assert slots[..n + 1] == slots[..n] + [slots[n]];
      PackGrows(slots, n + 1, excluding);
    } else {
      assert slots[..n] == slots;
    }
  }

  /** The occupied slots of a full-array node but one are packed again, and a bit is set for each. */
  method PackNodes<K(0), V(0)>(slots: seq<Option<Node<K, V>>>, count: nat, excluding: nat)
    returns (bitmap: nat, packed: array<Option<Node<K, V>>>)
    requires |slots| == 32 && count == |Pack(slots, excluding).1|
    ensures fresh(packed) && packed.Length == count
    ensures bitmap == Num(Pack(slots, excluding).0) && Bits(bitmap, 32) == Pack(slots, excluding).0
    ensures forall i | 0 <= i < count :: packed[i] == Some(Pack(slots, excluding).1[i])
  {
    packed := new Option<Node<K, V>>[count](_ => None);
    bitmap := 0;
    var o, bit: nat := 0, 1;
    for a := 0 to 32
      invariant bit == Pow(2, a)
      invariant |Pack(slots[..a], excluding).0| == a && bitmap == Num(Pack(slots[..a], excluding).0)
      invariant o == |Pack(slots[..a], excluding).1| <= count
      invariant forall i | 0 <= i < o :: packed[i] == Some(Pack(slots[..a], excluding).1[i])
    {
      ghost var bits := Pack(slots[..a], excluding).0;
      PackExtends(slots[..a], slots[a], excluding);
      assert slots[..a + 1] == slots[..a] + [slots[a]];
      PackGrows(slots, a + 1, excluding);
      if slots[a].Some? && a != excluding {
        SetBitOnTop(bits);
        bitmap := Or(bitmap, bit);
        packed[o] := slots[a];
        o := o + 1;
      } else {
        ClearBitOnTop(bits);
      }
      bit := 2 * bit;
    }
    assert slots[..32] == slots;
    BitsOfNum(Pack(slots, excluding).0);
  }

  // ---------------------------------------------------------------- leaving the array map

  /** The entries of an outgrown array map are stored one by one. */
  method StoreEntries<K(==, !new), V(==, !new)>(hash: K -> Word, first: Node<K, V>, entries: seq<(K, V)>) returns (node: Node<K, V>)
    requires WellFormed(hash, first, [])
    ensures node == StoreAll(hash, first, entries)
  {
    node := first;
    var o := 0;
    assert entries[0..] == entries;
    while o < |entries|
      invariant o <= |entries| && WellFormed(hash, node, [])
      invariant StoreAll(hash, node, entries[o..]) == StoreAll(hash, first, entries)
    {
      var e := entries[o];
      assert entries[o..][1..] == entries[o + 1..];
      UpdateTreeIsRight(hash, node, [], e.0, Some(e.1));
      var updated := UpdateTree(hash, node, 0, [], e.0, Some(e.1));
      if updated.Altered? {
        node := updated.node.value;
      }
      o := o + 1;
    }
  }
}
