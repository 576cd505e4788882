/** Least-recently-used cache: what it holds, as a list in recency order and as timestamps. */
module Lru {
  import opened ByteCodec
  import opened Seqs

  datatype Entry<K, V> = Entry(key: K, value: V, created: int)

  /** Index of a key, or the length when absent. */
  function IndexOf<K(==), V>(c: seq<Entry<K, V>>, k: K): (i: nat)
    ensures i <= |c|
    ensures i < |c| ==> c[i].key == k
    ensures forall j :: 0 <= j < i ==> c[j].key != k
  {
    if c == [] || c[0].key == k then 0 else 1 + IndexOf(c[1..], k)
  }

  predicate Has<K(==), V>(c: seq<Entry<K, V>>, k: K) { IndexOf(c, k) < |c| }

  /** A hit moves the entry to the front and keeps its creation time. */
  function Get<K(==), V>(c: seq<Entry<K, V>>, k: K): seq<Entry<K, V>> {
    var i := IndexOf(c, k);
    if i < |c| then [c[i]] + RemoveAt(c, i) else c
  }

  /** A put refreshes in place or inserts in front, evicting the last entry when full. */
  function Put<K(==), V>(c: seq<Entry<K, V>>, k: K, v: V, now: int, capacity: nat): seq<Entry<K, V>>
    requires capacity > 0
  {
    var i := IndexOf(c, k);
    if i < |c| then [Entry(k, v, now)] + RemoveAt(c, i)
    else [Entry(k, v, now)] + (if |c| >= capacity then c[..|c| - 1] else c)
  }

  function Invalidate<K(==), V>(c: seq<Entry<K, V>>, k: K): seq<Entry<K, V>> {
    var i := IndexOf(c, k);
    if i < |c| then RemoveAt(c, i) else c
  }

  function InvalidateIf<K, V>(c: seq<Entry<K, V>>, drop: K -> bool): (r: seq<Entry<K, V>>)
    ensures |r| <= |c|
  {
    if c == [] then []
    else if drop(c[0].key) then InvalidateIf(c[1..], drop)
    else [c[0]] + InvalidateIf(c[1..], drop)
  }

  // ---------------------------------------------------------------- the list-and-map implementation

  /** A list node at a stable address: the map stores the address, as the source stores an iterator. */
  datatype Node<K, V> = Node(addr: nat, key: K, value: V, created: int)

  function Entries<K, V>(list: seq<Node<K, V>>): (c: seq<Entry<K, V>>)
    ensures |c| == |list|
    ensures forall i :: 0 <= i < |c| ==> c[i] == Entry(list[i].key, list[i].value, list[i].created)
  {
    seq(|list|, i requires 0 <= i < |list| => Entry(list[i].key, list[i].value, list[i].created))
  }

  function PositionOf<K, V>(list: seq<Node<K, V>>, addr: nat): (i: nat)
    ensures i <= |list|
    ensures i < |list| ==> list[i].addr == addr
    ensures forall j :: 0 <= j < i ==> list[j].addr != addr
  {
    if list == [] || list[0].addr == addr then 0 else 1 + PositionOf(list[1..], addr)
  }

  /** List and map agree as a bijection. */
  ghost predicate Linked<K, V>(list: seq<Node<K, V>>, index: map<K, nat>) {
    && (forall i, j :: 0 <= i < j < |list| ==> list[i].addr != list[j].addr && list[i].key != list[j].key)
    && (forall i :: 0 <= i < |list| ==> list[i].key in index && index[list[i].key] == list[i].addr)
    && (forall k :: k in index ==> Holds(list, k))
  }

  ghost predicate Holds<K, V>(list: seq<Node<K, V>>, k: K) { exists i :: 0 <= i < |list| && list[i].key == k }

  lemma LinkedSize<K, V>(list: seq<Node<K, V>>, index: map<K, nat>)
    requires Linked(list, index)
    ensures |index| == |list|
  {
    var keys := seq(|list|, i requires 0 <= i < |list| => list[i].key);
    forall k | k in index ensures k in keys {
      assert Holds(list, k);
      var i :| 0 <= i < |list| && list[i].key == k;
      assert keys[i] == k;
    }
    SetSize(keys, index.Keys);
  }

  /** The map leads from a key to the node that holds it. */
  lemma LinkedFind<K, V>(list: seq<Node<K, V>>, index: map<K, nat>, k: K)
    requires Linked(list, index)
    ensures k in index <==> Has(Entries(list), k)
    ensures k in index ==> PositionOf(list, index[k]) == IndexOf(Entries(list), k) < |list|
  {
    var i := IndexOf(Entries(list), k);
    if k in index {
      assert Holds(list, k);
      var j :| 0 <= j < |list| && list[j].key == k;
      assert Entries(list)[j].key == k;
    }
    if i < |list| {
      assert Entries(list)[i].key == list[i].key == k;
      assert list[i].addr == index[k];
    }
  }

  class LruCache<K(==), V> {
    const capacity: nat
    const ttl: int
    var list: seq<Node<K, V>>
    var index: map<K, nat>
    var nextAddr: nat

    ghost predicate Valid()
      reads this
    {
      && capacity > 0 && |list| <= capacity
      && Linked(list, index)
      && forall i :: 0 <= i < |list| ==> list[i].addr < nextAddr
    }

    ghost function View(): seq<Entry<K, V>>
      reads this
    {
      Entries(list)
    }

    constructor (capacity: nat, ttl: int)
      ensures Valid() && View() == [] && this.ttl == ttl
      ensures this.capacity == if capacity > 0 then capacity else 1
    {
      this.capacity := if capacity > 0 then capacity else 1;
      this.ttl := ttl;
      list, index, nextAddr := [], map[], 0;
    }

    method Lookup(key: K, now: int) returns (value: Option<V>, stale: bool)
      requires Valid()
      modifies this`list
      ensures Valid() && View() == Get(old(View()), key)
      ensures value.Some? <==> Has(old(View()), key)
      ensures value.Some? ==>
                var e := old(View())[IndexOf(old(View()), key)];
                value.value == e.value && stale == (now - e.created >= ttl)
      ensures value.None? ==> !stale
    {
      hide Linked;
      LinkedFind(list, index, key);
      if key !in index { return None, false; }
      var i := PositionOf(list, index[key]);
      var node := list[i];
      LinkedMove(list, index, i, node);
      list := [node] + RemoveAt(list, i);
      value, stale := Some(node.value), now - node.created >= ttl;
    }

    method MakeRoom()
      requires Valid()
      modifies this`list, this`index
      ensures Valid() && |list| < capacity && index.Keys <= old(index.Keys)
      ensures View() == if |old(list)| >= capacity then old(View())[..|old(list)| - 1] else old(View())
    {
      hide Linked;
      LinkedSize(list, index);
      if |index| >= capacity {
        var i := |list| - 1;
        LinkedErase(list, index, i);
        assert RemoveAt(list, i) == list[..i] && RemoveAt(Entries(list), i) == Entries(list)[..i];
        index := index - {list[i].key};
        list := list[..i];
      }
    }

    method Insert(key: K, value: V, now: int)
      requires Valid()
      modifies this
      ensures Valid() && View() == Put(old(View()), key, value, now, capacity)
    {
      hide Linked, Entries, RemoveAt, PositionOf, IndexOf;
      LinkedFind(list, index, key);
      if key in index {
        var i := PositionOf(list, index[key]);
        var node := Node(index[key], key, value, now);
        LinkedMove(list, index, i, node);
        list := [node] + RemoveAt(list, i);
        return;
      }
      MakeRoom();
      var node := Node(nextAddr, key, value, now);
      LinkedPush(list, index, node);
      list, index, nextAddr := [node] + list, index[key := nextAddr], nextAddr + 1;
    }

    method Drop(key: K)
      requires Valid()
      modifies this
      ensures Valid() && View() == Invalidate(old(View()), key)
    {
      hide Linked;
      LinkedFind(list, index, key);
      if key in index {
        var i := PositionOf(list, index[key]);
        LinkedErase(list, index, i);
        list, index := RemoveAt(list, i), index - {key};
      }
    }

    method DropIf(drop: K -> bool)
      requires Valid()
      modifies this
      ensures Valid() && View() == InvalidateIf(old(View()), drop)
    {
      hide Linked, InvalidateIf, RemoveAt;
      var i := 0;
      ghost var goal := InvalidateIf(View(), drop);
      assert Entries(list)[0..] == Entries(list);
      assert Entries(list)[..0] + goal == goal;
      while i < |list|
        invariant i <= |list| && Valid()
        invariant goal == Entries(list)[..i] + InvalidateIf(Entries(list)[i..], drop)
        decreases |list| - i
      {
        DropIfStep(Entries(list), i, drop);
        if drop(list[i].key) {
          LinkedErase(list, index, i);
          index := index - {list[i].key};
          list := RemoveAt(list, i);
        } else {
          i := i + 1;
        }
      }
      assert InvalidateIf(Entries(list)[i..], drop) == [] by { DropIfNothing(Entries(list)[i..], drop); }
      assert Entries(list)[..i] + [] == Entries(list);
    }
  }

  lemma DropIfNothing<K, V>(c: seq<Entry<K, V>>, drop: K -> bool)
    requires c == []
    ensures InvalidateIf(c, drop) == []
  {}

  /** One turn of the erase loop. */
  lemma DropIfStep<K, V>(c: seq<Entry<K, V>>, i: nat, drop: K -> bool)
    requires i < |c|
    ensures c[..i] + InvalidateIf(c[i..], drop) ==
      if drop(c[i].key) then RemoveAt(c, i)[..i] + InvalidateIf(RemoveAt(c, i)[i..], drop)
      else c[..i + 1] + InvalidateIf(c[i + 1..], drop)
  {
    assert c[i..][1..] == c[i + 1..] && c[i..][0] == c[i];
    if drop(c[i].key) {
      assert RemoveAt(c, i)[..i] == c[..i] && RemoveAt(c, i)[i..] == c[i + 1..];
    } else {
      assert c[..i] + ([c[i]] + InvalidateIf(c[i + 1..], drop)) == c[..i + 1] + InvalidateIf(c[i + 1..], drop);
    }
  }

  lemma LinkedPush<K, V>(list: seq<Node<K, V>>, index: map<K, nat>, node: Node<K, V>)
    requires Linked(list, index) && node.key !in index
    requires forall i :: 0 <= i < |list| ==> list[i].addr != node.addr
    ensures Linked([node] + list, index[node.key := node.addr])
    ensures Entries([node] + list) == [Entry(node.key, node.value, node.created)] + Entries(list)
  {
    forall k | k in index[node.key := node.addr] ensures Holds([node] + list, k) {
      if k != node.key { assert Holds(list, k); }
      HoldsPush(list, node, k);
    }
    hide Holds;
  }

  lemma HoldsPush<K, V>(list: seq<Node<K, V>>, node: Node<K, V>, k: K)
    requires k == node.key || Holds(list, k)
    ensures Holds([node] + list, k)
  {
    if k == node.key {
      assert ([node] + list)[0].key == k;
    } else {
      var i :| 0 <= i < |list| && list[i].key == k;
      assert ([node] + list)[i + 1].key == k;
    }
  }

  lemma LinkedErase<K, V>(list: seq<Node<K, V>>, index: map<K, nat>, i: nat)
    requires Linked(list, index) && i < |list|
    ensures Linked(RemoveAt(list, i), index - {list[i].key})
    ensures Entries(RemoveAt(list, i)) == RemoveAt(Entries(list), i)
  {
    forall k | k in index - {list[i].key} ensures Holds(RemoveAt(list, i), k) {
      assert Holds(list, k);
      HoldsErase(list, i, k);
    }
    hide Holds;
  }

  lemma HoldsErase<K, V>(list: seq<Node<K, V>>, i: nat, k: K)
    requires i < |list| && Holds(list, k) && list[i].key != k
    ensures Holds(RemoveAt(list, i), k)
  {
    var j :| 0 <= j < |list| && list[j].key == k;
    assert RemoveAt(list, i)[if j < i then j else j - 1].key == k;
  }

  lemma LinkedMove<K, V>(list: seq<Node<K, V>>, index: map<K, nat>, i: nat, node: Node<K, V>)
    requires Linked(list, index) && i < |list| && node.addr == list[i].addr && node.key == list[i].key
    ensures Linked([node] + RemoveAt(list, i), index)
    ensures Entries([node] + RemoveAt(list, i)) == [Entry(node.key, node.value, node.created)] + RemoveAt(Entries(list), i)
  {
    LinkedErase(list, index, i);
    LinkedPush(RemoveAt(list, i), index - {node.key}, node);
    assert (index - {node.key})[node.key := node.addr] == index;
  }

  // ---------------------------------------------------------------- reference: timestamps instead of a list

  datatype Slot<V> = Slot(touched: nat, value: V, created: int)

  /** Every surviving key with the time of its last touch. No order is kept; eviction looks for the minimum. */
  datatype Stamped<K, V> = Stamped(clock: nat, live: map<K, Slot<V>>)

  datatype Op<!K, V> =
    | GetOp(k: K)
    | PutOp(k: K, v: V, now: int)
    | InvalidateOp(k: K)
    | InvalidateIfOp(drop: K -> bool)
    | ClearOp

  ghost predicate Oldest<K(!new), V>(live: map<K, Slot<V>>, k: K) {
    k in live && forall j :: j in live ==> live[k].touched <= live[j].touched
  }

  ghost function StampStep<K(!new), V>(r: Stamped<K, V>, op: Op<K, V>, capacity: nat): Stamped<K, V> {
    match op
    case GetOp(k) =>
      if k in r.live then Stamped(r.clock + 1, r.live[k := r.live[k].(touched := r.clock)]) else r
    case PutOp(k, v, now) =>
      var kept := if k !in r.live && |r.live| >= capacity
                  then map j | j in r.live && !Oldest(r.live, j) :: r.live[j] else r.live;
      Stamped(r.clock + 1, kept[k := Slot(r.clock, v, now)])
    case InvalidateOp(k) => r.(live := r.live - {k})
    case InvalidateIfOp(drop) => r.(live := map j | j in r.live && !drop(j) :: r.live[j])
    case ClearOp => r.(live := map[])
  }

  function ListStep<K(==), V>(c: seq<Entry<K, V>>, op: Op<K, V>, capacity: nat): seq<Entry<K, V>>
    requires capacity > 0
  {
    match op
    case GetOp(k) => Get(c, k)
    case PutOp(k, v, now) => Put(c, k, v, now, capacity)
    case InvalidateOp(k) => Invalidate(c, k)
    case InvalidateIfOp(drop) => InvalidateIf(c, drop)
    case ClearOp => []
  }

  function ListRun<K(==), V>(ops: seq<Op<K, V>>, capacity: nat): seq<Entry<K, V>>
    requires capacity > 0
  {
    if ops == [] then [] else ListStep(ListRun(ops[..|ops| - 1], capacity), ops[|ops| - 1], capacity)
  }

  ghost function StampRun<K(!new), V>(ops: seq<Op<K, V>>, capacity: nat): Stamped<K, V> {
    if ops == [] then Stamped(0, map[]) else StampStep(StampRun(ops[..|ops| - 1], capacity), ops[|ops| - 1], capacity)
  }

  ghost predicate Listed<K(!new), V>(c: seq<Entry<K, V>>, live: map<K, Slot<V>>) {
    forall i :: 0 <= i < |c| ==>
      c[i].key in live && live[c[i].key].value == c[i].value && live[c[i].key].created == c[i].created
  }

  ghost predicate Covers<K(!new), V>(c: seq<Entry<K, V>>, live: map<K, Slot<V>>) {
    forall k :: k in live ==> exists i :: 0 <= i < |c| && c[i].key == k
  }

  ghost predicate NewestFirst<K(!new), V>(c: seq<Entry<K, V>>, live: map<K, Slot<V>>) {
    forall i, j :: 0 <= i < j < |c| ==>
      c[i].key in live && c[j].key in live && live[c[i].key].touched > live[c[j].key].touched
  }

  /** The list is exactly the surviving keys, newest touch first, with the value and time of their last put. */
  ghost predicate Agree<K(!new), V>(c: seq<Entry<K, V>>, r: Stamped<K, V>, capacity: nat) {
    && |c| <= capacity
    && Listed(c, r.live) && Covers(c, r.live) && NewestFirst(c, r.live)
    && forall k :: k in r.live ==> r.live[k].touched < r.clock
  }

  lemma AgreeCount<K(!new), V>(c: seq<Entry<K, V>>, r: Stamped<K, V>, capacity: nat)
    requires Agree(c, r, capacity)
    ensures |r.live| == |c| <= capacity
  {
    var keys := seq(|c|, i requires 0 <= i < |c| => c[i].key);
    assert Distinct(keys);
    forall k | k in r.live ensures k in keys {
      var i :| 0 <= i < |c| && c[i].key == k;
      assert keys[i] == k;
    }
    SetSize(keys, r.live.Keys);
  }

  /** Moving or adding an entry to the front is giving it the newest stamp. */
  lemma AgreeFront<K(!new), V>(c: seq<Entry<K, V>>, r: Stamped<K, V>, e: Entry<K, V>, capacity: nat)
    requires Agree(c, r, capacity) && e.key !in r.live && |c| < capacity
    ensures Agree([e] + c, Stamped(r.clock + 1, r.live[e.key := Slot(r.clock, e.value, e.created)]), capacity)
  {
    CoversFront(c, r.live, e, Slot(r.clock, e.value, e.created));
    hide Covers;
  }

  lemma CoversFront<K(!new), V>(c: seq<Entry<K, V>>, live: map<K, Slot<V>>, e: Entry<K, V>, slot: Slot<V>)
    requires Covers(c, live)
    ensures Covers([e] + c, live[e.key := slot])
  {
    var more, live' := [e] + c, live[e.key := slot];
    forall k | k in live' ensures exists i :: 0 <= i < |more| && more[i].key == k {
      if k == e.key {
        assert more[0].key == k;
      } else {
        var i :| 0 <= i < |c| && c[i].key == k;
        assert more[i + 1].key == k;
      }
    }
  }

  lemma ListedWithout<K(!new), V>(c: seq<Entry<K, V>>, live: map<K, Slot<V>>, i: nat)
    requires Listed(c, live) && NewestFirst(c, live) && i < |c|
    ensures Listed(RemoveAt(c, i), live - {c[i].key})
  {
    var c' := RemoveAt(c, i);
    forall j | 0 <= j < |c'| ensures c'[j] == c[if j < i then j else j + 1] && c'[j].key != c[i].key {}
  }

  lemma CoversWithout<K(!new), V>(c: seq<Entry<K, V>>, live: map<K, Slot<V>>, i: nat)
    requires Covers(c, live) && i < |c|
    ensures Covers(RemoveAt(c, i), live - {c[i].key})
  {
    var c' := RemoveAt(c, i);
    forall k | k in live && k != c[i].key ensures exists j :: 0 <= j < |c'| && c'[j].key == k {
      var j :| 0 <= j < |c| && c[j].key == k;
      assert c'[if j < i then j else j - 1].key == k;
    }
  }

  lemma NewestFirstWithout<K(!new), V>(c: seq<Entry<K, V>>, live: map<K, Slot<V>>, i: nat)
    requires NewestFirst(c, live) && i < |c|
    ensures NewestFirst(RemoveAt(c, i), live - {c[i].key})
  {
    var c' := RemoveAt(c, i);
    forall a, b | 0 <= a < b < |c'|
      ensures c'[a].key != c[i].key && c'[b].key != c[i].key
      ensures c'[a].key in live && c'[b].key in live && live[c'[a].key].touched > live[c'[b].key].touched
    {
      var a', b' := if a < i then a else a + 1, if b < i then b else b + 1;
      assert c'[a] == c[a'] && c'[b] == c[b'];
    }
  }

  lemma AgreeWithout<K(!new), V>(c: seq<Entry<K, V>>, r: Stamped<K, V>, i: nat, capacity: nat)
    requires Agree(c, r, capacity) && i < |c|
    ensures Agree(RemoveAt(c, i), r.(live := r.live - {c[i].key}), capacity)
  {
    hide Listed, Covers, NewestFirst;
    ListedWithout(c, r.live, i);
    CoversWithout(c, r.live, i);
    NewestFirstWithout(c, r.live, i);
  }

  lemma AgreeFind<K(!new), V>(c: seq<Entry<K, V>>, r: Stamped<K, V>, k: K, capacity: nat)
    requires Agree(c, r, capacity)
    ensures k in r.live <==> Has(c, k)
  {
    if k in r.live {
      var i :| 0 <= i < |c| && c[i].key == k;
    }
  }

  lemma AgreeGet<K(!new), V>(c: seq<Entry<K, V>>, r: Stamped<K, V>, k: K, capacity: nat)
    requires Agree(c, r, capacity) && capacity > 0
    ensures Agree(Get(c, k), StampStep(r, GetOp(k), capacity), capacity)
  {
    AgreeFind(c, r, k, capacity);
    if Has(c, k) {
      var i := IndexOf(c, k);
      AgreeWithout(c, r, i, capacity);
      AgreeFront(RemoveAt(c, i), r.(live := r.live - {k}), c[i], capacity);
      assert (r.live - {k})[k := Slot(r.clock, c[i].value, c[i].created)] == r.live[k := r.live[k].(touched := r.clock)];
    }
  }

  /** The last of the list is the one key with the oldest stamp. */
  lemma LastIsOldest<K(!new), V>(c: seq<Entry<K, V>>, r: Stamped<K, V>, capacity: nat)
    requires Agree(c, r, capacity) && c != []
    ensures forall k :: Oldest(r.live, k) <==> k == c[|c| - 1].key
  {
    var last := c[|c| - 1].key;
    forall k | k in r.live ensures r.live[last].touched <= r.live[k].touched {
      var i :| 0 <= i < |c| && c[i].key == k;
    }
    forall k | Oldest(r.live, k) ensures k == last {
      var i :| 0 <= i < |c| && c[i].key == k;
    }
  }

  lemma AgreePut<K(!new), V>(c: seq<Entry<K, V>>, r: Stamped<K, V>, k: K, v: V, now: int, capacity: nat)
    requires Agree(c, r, capacity) && capacity > 0
    ensures Agree(Put(c, k, v, now, capacity), StampStep(r, PutOp(k, v, now), capacity), capacity)
  {
    hide Agree;
    AgreeFind(c, r, k, capacity);
    AgreeCount(c, r, capacity);
    var e := Entry(k, v, now);
    if Has(c, k) {
      var i := IndexOf(c, k);
      AgreeWithout(c, r, i, capacity);
      AgreeFront(RemoveAt(c, i), r.(live := r.live - {k}), e, capacity);
      assert (r.live - {k})[k := Slot(r.clock, v, now)] == r.live[k := Slot(r.clock, v, now)];
    } else if |c| >= capacity {
      LastIsOldest(c, r, capacity);
      AgreeWithout(c, r, |c| - 1, capacity);
      assert RemoveAt(c, |c| - 1) == c[..|c| - 1];
      var kept := map j | j in r.live && !Oldest(r.live, j) :: r.live[j];
      assert kept == r.live - {c[|c| - 1].key};
      AgreeFront(c[..|c| - 1], r.(live := kept), e, capacity);
    } else {
      AgreeFront(c, r, e, capacity);
    }
  }

  lemma {:induction false} AgreeInvalidateIf<K(!new), V>(c: seq<Entry<K, V>>, r: Stamped<K, V>, drop: K -> bool, capacity: nat)
    requires Agree(c, r, capacity)
    ensures Agree(InvalidateIf(c, drop), r.(live := map j | j in r.live && !drop(j) :: r.live[j]), capacity)
  {
    hide Agree, RemoveAt;
    var live := map j | j in r.live && !drop(j) :: r.live[j];
    if c == [] {
      AgreeCount(c, r, capacity);
      assert live == r.live;
    } else {
      var k := c[0].key;
      AgreeHead(c, r, capacity);
      var r' := r.(live := r.live - {k});
      AgreeInvalidateIf(c[1..], r', drop, capacity);
      var live' := map j | j in r'.live && !drop(j) :: r'.live[j];
      if drop(k) {
        assert live == live';
      } else {
        assert live == live'[k := r.live[k]];
        AgreeBelow(c, InvalidateIf(c[1..], drop), r.(live := live'), r.live[k], capacity);
      }
    }
  }

  /** The head carries the newest stamp; the tail is the cache without it. */
  lemma AgreeHead<K(!new), V>(c: seq<Entry<K, V>>, r: Stamped<K, V>, capacity: nat)
    requires Agree(c, r, capacity) && c != []
    ensures |c| <= capacity
    ensures var k := c[0].key;
            && k in r.live && r.live[k].value == c[0].value && r.live[k].created == c[0].created
            && r.live[k].touched < r.clock
            && (forall j :: j in r.live && j != k ==> r.live[j].touched < r.live[k].touched)
            && Agree(c[1..], r.(live := r.live - {k}), capacity)
  {
    AgreeWithout(c, r, 0, capacity);
    assert RemoveAt(c, 0) == c[1..];
    forall j | j in r.live && j != c[0].key ensures r.live[j].touched < r.live[c[0].key].touched {
      var i :| 0 <= i < |c| && c[i].key == j;
    }
  }

  lemma AgreeBelow<K(!new), V>(c: seq<Entry<K, V>>, rest: seq<Entry<K, V>>, r: Stamped<K, V>, slot: Slot<V>, capacity: nat)
    requires c != [] && Agree(rest, r, capacity) && |rest| < capacity && c[0].key !in r.live
    requires slot.value == c[0].value && slot.created == c[0].created && slot.touched < r.clock
    requires forall k :: k in r.live ==> r.live[k].touched < slot.touched
    ensures Agree([c[0]] + rest, r.(live := r.live[c[0].key := slot]), capacity)
  {
    var c' := [c[0]] + rest;
    var live := r.live[c[0].key := slot];
    forall k | k in live ensures exists i :: 0 <= i < |c'| && c'[i].key == k {
      if k == c[0].key {
        assert c'[0].key == k;
      } else {
        var i :| 0 <= i < |rest| && rest[i].key == k;
        assert c'[i + 1].key == k;
      }
    }
  }

  lemma AgreeStep<K(!new), V>(c: seq<Entry<K, V>>, r: Stamped<K, V>, op: Op<K, V>, capacity: nat)
    requires Agree(c, r, capacity) && capacity > 0
    ensures Agree(ListStep(c, op, capacity), StampStep(r, op, capacity), capacity)
  {
    match op
    case GetOp(k) => AgreeGet(c, r, k, capacity);
    case PutOp(k, v, now) => AgreePut(c, r, k, v, now, capacity);
    case InvalidateOp(k) =>
      AgreeFind(c, r, k, capacity);
      if Has(c, k) { AgreeWithout(c, r, IndexOf(c, k), capacity); }
      else { assert r.live - {k} == r.live; }
    case InvalidateIfOp(drop) => AgreeInvalidateIf(c, r, drop, capacity);
    case ClearOp =>
  }

  /** After any operations the recency list is the timestamp cache, read newest first. */
  lemma {:induction false} Refinement<K(!new), V>(ops: seq<Op<K, V>>, capacity: nat)
    requires capacity > 0
    ensures Agree(ListRun(ops, capacity), StampRun(ops, capacity), capacity)
  {
    if ops != [] {
      Refinement(ops[..|ops| - 1], capacity);
      AgreeStep(ListRun(ops[..|ops| - 1], capacity), StampRun(ops[..|ops| - 1], capacity), ops[|ops| - 1], capacity);
    }
  }
}
