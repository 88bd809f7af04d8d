/** The queue behind size-limited memoization: it remembers ids in the order of their last hit and names the one
    to evict when a new id exceeds the limit. */
module LruQueues {
  import opened Prelude

  type Id = string

  // ---------------------------------------------------------------- the specification

  /** The live ids, least recently hit first. */
  type Order = seq<Id>

  function Without(q: Order, id: Id): (r: Order)
    ensures forall x :: x in r <==> x in q && x != id
    ensures id !in q ==> r == q
  {
    if q == [] then []
    else if q[0] == id then Without(q[1..], id)
    else [q[0]] + Without(q[1..], id)
  }

  /** A hit moves the id to the back; a new id may push the front one out. */
  function AfterHit(q: Order, id: Id, limit: nat): (Order, Option<Id>) {
    if id in q then (Without(q, id) + [id], None)
    else if |q| < limit then (q + [id], None)
    else ((q + [id])[1..], Some((q + [id])[0]))
  }

  datatype Event = Hits(id: Id) | Deletes(id: Id) | Clears

  function After(q: Order, e: Event, limit: nat): Order {
    match e
    case Hits(id) => AfterHit(q, id, limit).0
    case Deletes(id) => Without(q, id)
    case Clears => []
  }

  function Run(history: seq<Event>, limit: nat): Order {
    if history == [] then []
    else After(Run(history[..|history| - 1], limit), history[|history| - 1], limit)
  }

  /** When an id was last hit; 0 if never. */
  function LastHit(history: seq<Event>, id: Id): (n: nat)
    ensures n <= |history|
  {
    if history == [] then 0
    else if history[|history| - 1] == Hits(id) then |history|
    else LastHit(history[..|history| - 1], id)
  }

  ghost predicate ByLastHit(q: Order, history: seq<Event>) {
    && (forall i | 0 <= i < |q| :: LastHit(history, q[i]) > 0)
    && (forall i, j | 0 <= i < j < |q| :: LastHit(history, q[i]) < LastHit(history, q[j]))
  }

  ghost predicate Increasing(q: Order, key: Id -> nat) {
    && (forall i | 0 <= i < |q| :: key(q[i]) > 0)
    && (forall i, j | 0 <= i < j < |q| :: key(q[i]) < key(q[j]))
  }

  lemma InFront(x: Id, q: Order, key: Id -> nat)
    requires Increasing(q, key) && key(x) > 0 && forall y | y in q :: key(x) < key(y)
    ensures Increasing([x] + q, key)
  {
    assert forall i | 0 < i <= |q| :: ([x] + q)[i] == q[i - 1];
  }

  lemma InFrontOf(x: Id, q: Order, history: seq<Event>)
    requires ByLastHit(q, history) && LastHit(history, x) > 0
    requires forall y | y in q :: LastHit(history, x) < LastHit(history, y)
    ensures ByLastHit([x] + q, history)
  {
    var key := (id: Id) => LastHit(history, id);
    InFront(x, q, key);
    assert Increasing([x] + q, key) ==> ByLastHit([x] + q, history);
  }

  lemma RestIsOrdered(q: Order, history: seq<Event>)
    requires ByLastHit(q, history) && q != []
    ensures ByLastHit(q[1..], history) && forall y | y in q[1..] :: LastHit(history, q[0]) < LastHit(history, y)
  {
    assert forall i | 0 < i < |q| :: q[1..][i - 1] == q[i];
  }

  lemma {:induction false} WithoutIsSubsequence(q: Order, id: Id, history: seq<Event>)
    requires ByLastHit(q, history)
    ensures ByLastHit(Without(q, id), history) && |Without(q, id)| == |q| - if id in q then 1 else 0
  {
    if q != [] {
      RestIsOrdered(q, history);
      WithoutIsSubsequence(q[1..], id, history);
      if q[0] != id { InFrontOf(q[0], Without(q[1..], id), history); }
    }
  }

  /** What happens later to other ids leaves the order as it is. */
  lemma OrderCarriesOver(q: Order, front: seq<Event>, history: seq<Event>)
    requires ByLastHit(q, front) && forall x | x in q :: LastHit(history, x) == LastHit(front, x)
    ensures ByLastHit(q, history)
  {}

  lemma LatestGoesLast(q: Order, id: Id, history: seq<Event>)
    requires ByLastHit(q, history) && history != [] && LastHit(history, id) == |history|
    requires forall x | x in q :: LastHit(history, x) < |history|
    ensures ByLastHit(q + [id], history) && ByLastHit((q + [id])[1..], history)
  {
    var r := q + [id];
    assert forall i | 0 <= i < |q| :: r[i] == q[i];
    assert forall i | 0 <= i < |r| - 1 :: r[1..][i] == r[i + 1];
  }

  lemma HitKeepsOrder(front: seq<Event>, id: Id, q: Order, limit: nat)
    requires ByLastHit(q, front) && |q| <= limit
    ensures var (r, _) := AfterHit(q, id, limit); |r| <= limit && ByLastHit(r, front + [Hits(id)])
  {
    var history := front + [Hits(id)];
    assert history[..|front|] == front;
    WithoutIsSubsequence(q, id, front);
    var others := Without(q, id);
    forall x | x in others ensures LastHit(history, x) == LastHit(front, x) {}
    OrderCarriesOver(others, front, history);
    LatestGoesLast(others, id, history);
  }

  /** At most `limit` ids are live, and they are ordered by their last hit. */
  lemma {:induction false} LimitAndOrder(history: seq<Event>, limit: nat)
    requires limit >= 1
    ensures |Run(history, limit)| <= limit && ByLastHit(Run(history, limit), history)
  {
    if history != [] {
      var n := |history| - 1;
      var front := history[..n];
      var q := Run(front, limit);
      LimitAndOrder(front, limit);
      assert history == front + [history[n]];
      match history[n]
      case Hits(id) => HitKeepsOrder(front, id, q, limit);
      case Deletes(id) =>
        WithoutIsSubsequence(q, id, front);
        OrderCarriesOver(Without(q, id), front, history);
      case Clears =>
    }
  }

  /** A hit evicts exactly when the id is new and the queue is full, and then the id whose last hit is the
      longest ago. */
  lemma EvictionIsLeastRecent(history: seq<Event>, limit: nat, id: Id)
    requires limit >= 1
    ensures var q := Run(history, limit);
            var (r, evicted) := AfterHit(q, id, limit);
            && r == Run(history + [Hits(id)], limit)
            && (evicted.Some? <==> id !in q && |q| == limit)
            && (evicted.Some? ==> evicted.value in q && evicted.value !in r
                                  && forall x | x in q && x != evicted.value :: LastHit(history, evicted.value) < LastHit(history, x))
  {
    LimitAndOrder(history, limit);
    LimitAndOrder(history + [Hits(id)], limit);
    assert (history + [Hits(id)])[..|history|] == history;
    var q := Run(history, limit);
    if id !in q && |q| == limit {
      forall x | x in q && x != q[0] ensures LastHit(history, q[0]) < LastHit(history, x) {
        var i :| 0 <= i < |q| && q[i] == x;
      }
      assert q[0] !in q[1..];
    }
  }

  // ---------------------------------------------------------------- which ids live

  /** A hit pushes the id out: a new one when the queue is full, and this is the one hit longest ago. */
  ghost predicate PushedOut(live: set<Id>, history: seq<Event>, limit: nat, hit: Id, x: Id) {
    hit !in live && |live| >= limit && forall y | y in live :: LastHit(history, x) <= LastHit(history, y)
  }

  /** The live ids, told from the history: hits bring ids in, deletions and clearing take them out, and so do hits
      of new ids on a full queue. */
  ghost function LiveIds(history: seq<Event>, limit: nat): set<Id> {
    if history == [] then {}
    else
      var front := history[..|history| - 1];
      var live := LiveIds(front, limit);
      match history[|history| - 1]
      case Hits(id) => (set x | x in live && !PushedOut(live, front, limit, id, x)) + {id}
      case Deletes(id) => live - {id}
      case Clears => {}
  }

  ghost function Elements(q: Order): set<Id> { set x | x in q }

  lemma {:induction false} ElementCount(q: Order)
    requires forall i, j | 0 <= i < j < |q| :: q[i] != q[j]
    ensures |Elements(q)| == |q|
  {
    if q != [] {
      var rest := q[1..];
      assert forall i | 0 <= i < |rest| :: rest[i] == q[i + 1];
      ElementCount(rest);
      assert q[0] !in rest;
      assert Elements(q) == Elements(q[1..]) + {q[0]};
    }
  }

  lemma FrontIsPushedOut(q: Order, history: seq<Event>, limit: nat, hit: Id, x: Id)
    requires limit >= 1 && ByLastHit(q, history) && |q| <= limit && |Elements(q)| == |q| && x in q
    ensures PushedOut(Elements(q), history, limit, hit, x) <==> hit !in q && |q| == limit && x == q[0]
  {
    forall y | y in Elements(q) && y != q[0] ensures LastHit(history, q[0]) < LastHit(history, y) {
      var i :| 0 <= i < |q| && q[i] == y;
    }
    assert q[0] in Elements(q);
  }

  /** After any history, exactly those ids are in the queue. */
  lemma {:induction false} LiveExactly(history: seq<Event>, limit: nat)
    requires limit >= 1
    ensures Elements(Run(history, limit)) == LiveIds(history, limit)
  {
    if history != [] {
      var front, last := history[..|history| - 1], history[|history| - 1];
      var q := Run(front, limit);
      LimitAndOrder(front, limit);
      LiveExactly(front, limit);
      ElementCount(q);
      if last.Hits? { HitElements(q, front, last.id, limit); }
    }
  }

  lemma HitElements(q: Order, front: seq<Event>, id: Id, limit: nat)
    requires limit >= 1 && ByLastHit(q, front) && |q| <= limit && |Elements(q)| == |q|
    ensures Elements(AfterHit(q, id, limit).0) == (set x | x in Elements(q) && !PushedOut(Elements(q), front, limit, id, x)) + {id}
  {
    forall x | x in q ensures PushedOut(Elements(q), front, limit, id, x) <==> id !in q && |q| == limit && x == q[0] {
      FrontIsPushedOut(q, front, limit, id, x);
    }
    if id !in q && |q| == limit {
      assert (q + [id])[1..] == q[1..] + [id];
      assert q[0] !in q[1..];
    }
  }

  // ---------------------------------------------------------------- the indexed queue

  /** The ids filed under the indices from `lo` to `hi`, in order. */
  function InOrder(queue: map<nat, Id>, lo: nat, hi: nat): Order
    decreases hi + 1 - lo
  {
    if lo > hi then []
    else if lo in queue then [queue[lo]] + InOrder(queue, lo + 1, hi)
    else InOrder(queue, lo + 1, hi)
  }

  lemma {:induction false} InOrderHas(queue: map<nat, Id>, lo: nat, hi: nat, id: Id)
    ensures id in InOrder(queue, lo, hi) <==> exists k :: lo <= k <= hi && k in queue && queue[k] == id
    decreases hi + 1 - lo
  {
    if lo <= hi { InOrderHas(queue, lo + 1, hi, id); }
  }

  lemma {:induction false} InOrderAgrees(p: map<nat, Id>, q: map<nat, Id>, lo: nat, hi: nat)
    requires forall k | lo <= k <= hi :: (k in p <==> k in q) && (k in p ==> p[k] == q[k])
    ensures InOrder(p, lo, hi) == InOrder(q, lo, hi)
    decreases hi + 1 - lo
  {
    if lo <= hi { InOrderAgrees(p, q, lo + 1, hi); }
  }

  /** Unused indices in front do not matter. */
  lemma {:induction false} InOrderSkips(queue: map<nat, Id>, lo: nat, mid: nat, hi: nat)
    requires lo <= mid <= hi + 1 && forall k | lo <= k < mid :: k !in queue
    ensures InOrder(queue, lo, hi) == InOrder(queue, mid, hi)
    decreases mid - lo
  {
    if lo < mid { InOrderSkips(queue, lo + 1, mid, hi); }
  }

  lemma {:induction false} InOrderAppends(queue: map<nat, Id>, lo: nat, hi: nat, id: Id)
    requires lo <= hi + 1
    ensures InOrder(queue[hi + 1 := id], lo, hi + 1) == InOrder(queue, lo, hi) + [id]
    decreases hi + 1 - lo
  {
    if lo <= hi { InOrderAppends(queue, lo + 1, hi, id); }
  }

  lemma {:induction false} InOrderRemoves(queue: map<nat, Id>, lo: nat, hi: nat, k: nat)
    requires lo <= k <= hi && k in queue
    requires forall i, j | i in queue && j in queue && i != j :: queue[i] != queue[j]
    ensures InOrder(queue - {k}, lo, hi) == Without(InOrder(queue, lo, hi), queue[k])
    ensures |InOrder(queue - {k}, lo, hi)| == |InOrder(queue, lo, hi)| - 1
    decreases hi + 1 - lo
  {
    if lo == k {
      InOrderHas(queue, lo + 1, hi, queue[k]);
      InOrderAgrees(queue, queue - {k}, lo + 1, hi);
    } else {
      var rest := InOrder(queue, lo + 1, hi);
      InOrderRemoves(queue, lo + 1, hi, k);
      if lo in queue { assert ([queue[lo]] + rest)[1..] == rest; }
    }
  }

  lemma InOrderFirst(queue: map<nat, Id>, lo: nat, hi: nat)
    requires lo <= hi && lo in queue
    requires forall i, j | i in queue && j in queue && i != j :: queue[i] != queue[j]
    ensures var q := InOrder(queue, lo, hi); q != [] && q[0] == queue[lo] && Without(q, q[0]) == q[1..]
  {
    InOrderHas(queue, lo + 1, hi, queue[lo]);
    var rest := InOrder(queue, lo + 1, hi);
    assert ([queue[lo]] + rest)[1..] == rest;
  }

  ghost predicate Mirror(queue: map<nat, Id>, indexes: map<Id, nat>) {
    && (forall k | k in queue :: queue[k] in indexes && indexes[queue[k]] == k)
    && (forall id | id in indexes :: indexes[id] in queue && queue[indexes[id]] == id)
  }

  lemma MirrorRefiled(queue: map<nat, Id>, indexes: map<Id, nat>, id: Id, k: nat)
    requires Mirror(queue, indexes) && id in indexes && k !in queue
    ensures Mirror(queue[k := id] - {indexes[id]}, indexes[id := k])
    ensures queue[k := id] - {indexes[id]} == (queue - {indexes[id]})[k := id]
  {}

  /** A live id moves from its index to the next free one. */
  lemma InOrderRefiled(queue: map<nat, Id>, indexes: map<Id, nat>, lo: nat, hi: nat, id: Id)
    requires Mirror(queue, indexes) && id in indexes && lo <= indexes[id] <= hi && hi + 1 !in queue
    ensures var q := queue[hi + 1 := id] - {indexes[id]};
            && InOrder(q, lo, hi + 1) == Without(InOrder(queue, lo, hi), id) + [id]
            && |InOrder(q, lo, hi + 1)| == |InOrder(queue, lo, hi)|
            && Mirror(q, indexes[id := hi + 1]) && hi + 1 in q
  {
    var k := indexes[id];
    InOrderRemoves(queue, lo, hi, k);
    InOrderAppends(queue - {k}, lo, hi, id);
    MirrorRefiled(queue, indexes, id, hi + 1);
  }

  class LruQueue {
    const limit: nat
    var count: nat
    var base: nat
    var queue: map<nat, Id>
    var indexes: map<Id, nat>
    var index: nat

    ghost function Live(): Order
      reads this
    {
      InOrder(queue, base, index)
    }

    /** Queue and index map mirror each other, and `base` is the smallest live index. */
    ghost predicate Consistent()
      reads this
    {
      && Mirror(queue, indexes)
      && (forall k | k in queue :: base <= k <= index)
      && count == |Live()| && base >= 1
      && (if queue == map[] then base == 1 && index == 0 else base in queue)
    }

    ghost predicate Valid()
      reads this
    {
      limit >= 1 && Consistent() && count <= limit
    }

    constructor (limit: nat)
      requires limit >= 1
      ensures Valid() && Live() == [] && this.limit == limit
    {
      this.limit := limit;
      count, base, queue, indexes, index := 0, 1, map[], map[], 0;
    }

    /** The loop that moves `base` to the next live index. */
    method Advance()
      requires queue != map[] && base !in queue
      requires forall k | k in queue :: base <= k <= index
      modifies `base
      ensures base in queue && old(base) < base && forall k | k in queue :: base <= k <= index
      ensures InOrder(queue, base, index) == InOrder(queue, old(base), index)
    {
      var k :| k in queue;
      base := base + 1;
      while base !in queue
        invariant base <= k && old(base) < base
        invariant forall j | j in queue :: base <= j <= index
        decreases index - base
      {
        base := base + 1;
      }
      InOrderSkips(queue, old(base), base, index);
    }

    /** The index of an id leaves the queue, which does not become empty. */
    method Unqueue(k: nat)
      requires k in queue && queue - {k} != map[] && base in queue
      requires forall j | j in queue :: base <= j <= index
      modifies `queue, `base
      ensures queue == old(queue) - {k} && base in queue && old(base) <= base
      ensures forall j | j in queue :: base <= j <= index
      ensures Live() == InOrder(queue, old(base), index)
    {
      queue := queue - {k};
      if base == k {
        Advance();
      }
    }

    method Delete(id: Id)
      requires Consistent()
      modifies `count, `base, `queue, `indexes, `index
      ensures Consistent() && Live() == Without(old(Live()), id)
    {
      InOrderHas(queue, base, index, id);
      if id !in indexes {
        return;
      }
      var k := indexes[id];
      InOrderRemoves(queue, base, index, k);
      indexes := indexes - {id};
      count := count - 1;
      if count == 0 {
        // the last index is the base
        EmptyQueue(queue - {k}, base, index);
        queue := queue - {k};
        index := 0;
        base := 1;
        return;
      }
      NonEmptyQueue(queue - {k}, base, index);
      Unqueue(k);
    }

    /** An id takes the next index.  A live one leaves its former index; a new one may push out the oldest. */
    method Hit(id: Id) returns (evicted: Option<Id>)
      requires Valid()
      modifies `count, `base, `queue, `indexes, `index
      ensures Valid() && (Live(), evicted) == AfterHit(old(Live()), id, limit)
    {
      InOrderHas(queue, base, index, id);
      if id in indexes {
        Rehit(id);
        return None;
      }
      HitNew(id);
      if count <= limit {
        return None;
      }
      var oldest := queue[base];
      InOrderFirst(queue, base, index);
      Delete(oldest);
      return Some(oldest);
    }

    /** A new id is filed, for the moment beyond the limit. */
    method HitNew(id: Id)
      requires Consistent() && id !in indexes
      modifies `count, `queue, `indexes, `index
      ensures Consistent() && Live() == old(Live()) + [id] && count == old(count) + 1 && queue != map[]
    {
      InOrderAppends(queue, base, index, id);
      index := index + 1;
      queue := queue[index := id];
      indexes := indexes[id := index];
      count := count + 1;
    }

    /** A live id is filed anew and leaves its former index. */
    method Rehit(id: Id)
      requires Consistent() && id in indexes
      modifies `base, `queue, `indexes, `index
      ensures Consistent() && Live() == Without(old(Live()), id) + [id]
    {
      var known := indexes[id];
      InOrderRefiled(queue, indexes, base, index, id);
      index := index + 1;
      queue := queue[index := id];
      indexes := indexes[id := index];
      Unqueue(known);
    }

    method Clear()
      requires Valid()
      modifies `count, `base, `queue, `indexes, `index
      ensures Valid() && Live() == []
    {
      count, base, queue, indexes, index := 0, 1, map[], map[], 0;
    }
  }

  lemma EmptyQueue(queue: map<nat, Id>, lo: nat, hi: nat)
    requires InOrder(queue, lo, hi) == [] && forall k | k in queue :: lo <= k <= hi
    ensures queue == map[]
  {
    if k :| k in queue { InOrderHas(queue, lo, hi, queue[k]); }
  }

  lemma NonEmptyQueue(queue: map<nat, Id>, lo: nat, hi: nat)
    requires InOrder(queue, lo, hi) != []
    ensures queue != map[]
  {
    InOrderHas(queue, lo, hi, InOrder(queue, lo, hi)[0]);
  }
}
