/** Epoch-ordered neighbor sets. */
module Trust {
  import opened ByteCodec
  import opened LinkCodec

  type Snapshot = Update

  predicate ValidEntry(n: Neighbor) { n.id != [] && |n.key| == KEY_BYTES }

  predicate ValidEntries(ns: seq<Neighbor>) {
    forall i :: 0 <= i < |ns| ==> ValidEntry(ns[i])
  }

  predicate Trusts(ns: seq<Neighbor>, id: Id) {
    exists i :: 0 <= i < |ns| && ns[i].id == id
  }

  /** The key of the first entry for an id, or nothing. */
  function NeighborKey(ns: seq<Neighbor>, id: Id): Bytes {
    if ns == [] then [] else if ns[0].id == id then ns[0].key else NeighborKey(ns[1..], id)
  }

  lemma {:induction false} KeyMeansTrusted(ns: seq<Neighbor>, id: Id)
    requires ValidEntries(ns)
    ensures Trusts(ns, id) <==> |NeighborKey(ns, id)| == KEY_BYTES
    ensures !Trusts(ns, id) <==> NeighborKey(ns, id) == []
    ensures Trusts(ns, id) ==> Neighbor(id, NeighborKey(ns, id)) in ns
  {
    if ns != [] {
      var rest := ns[1..];
      KeyMeansTrusted(rest, id);
      assert ValidEntry(ns[0]);
      assert Trusts(ns, id) <==> ns[0].id == id || Trusts(rest, id) by {
        if Trusts(ns, id) && ns[0].id != id {
          var i :| 0 <= i < |ns| && ns[i].id == id;
          assert rest[i - 1].id == id;
        }
        if Trusts(rest, id) {
          var i :| 0 <= i < |rest| && rest[i].id == id;
          assert ns[i + 1].id == id;
        }
      }
    }
  }

  datatype Outcome = Applied | Stale | InvalidArgument

  function Apply(current: Snapshot, next: Snapshot): (r: (Snapshot, Outcome)) {
    if next.epoch <= current.epoch then (current, Stale)
    else if !ValidEntries(next.neighbors) then (current, InvalidArgument)
    else (next, Applied)
  }

  /** The store: its snapshot is replaced wholesale, its listeners only grow. */
  class TrustStore {
    const controllerKey: Bytes
    var snapshot: Snapshot
    var listeners: seq<nat>

    ghost predicate Valid()
      reads this
    {
      |controllerKey| == KEY_BYTES && ValidEntries(snapshot.neighbors)
    }

    /** The source throws on the same condition it requires here. */
    constructor (controllerKey: Bytes, initial: Snapshot)
      requires |controllerKey| == KEY_BYTES && ValidEntries(initial.neighbors)
      ensures Valid() && snapshot == initial && listeners == [] && this.controllerKey == controllerKey
    {
      this.controllerKey := controllerKey;
      snapshot, listeners := initial, [];
    }

    method ApplySnapshot(next: Snapshot) returns (outcome: Outcome, notify: seq<nat>)
      requires Valid()
      modifies this`snapshot
      ensures Valid() && (snapshot, outcome) == Apply(old(snapshot), next)
      ensures notify == if outcome.Applied? then listeners else []
    {
      if next.epoch <= snapshot.epoch { return Stale, []; }
      for i := 0 to |next.neighbors|
        invariant forall j :: 0 <= j < i ==> ValidEntry(next.neighbors[j])
        invariant snapshot == old(snapshot)
      {
        if next.neighbors[i].id == [] || |next.neighbors[i].key| != KEY_BYTES { return InvalidArgument, []; }
      }
      snapshot := next;
      return Applied, listeners;
    }

    method AddListener(listener: nat)
      modifies this`listeners
      ensures listeners == old(listeners) + [listener]
    {
      listeners := listeners + [listener];
    }

    method FindKey(id: Id) returns (key: Bytes)
      ensures key == NeighborKey(snapshot.neighbors, id)
    {
      var i := 0;
      assert snapshot.neighbors[0..] == snapshot.neighbors;
      while i < |snapshot.neighbors|
        invariant i <= |snapshot.neighbors|
        invariant NeighborKey(snapshot.neighbors, id) == NeighborKey(snapshot.neighbors[i..], id)
      {
        if snapshot.neighbors[i].id == id { return snapshot.neighbors[i].key; }
        assert snapshot.neighbors[i..][1..] == snapshot.neighbors[i + 1..];
        i := i + 1;
      }
      return [];
    }

    method IsTrusted(id: Id) returns (trusted: bool)
      ensures trusted == Trusts(snapshot.neighbors, id)
    {
      for i := 0 to |snapshot.neighbors|
        invariant forall j :: 0 <= j < i ==> snapshot.neighbors[j].id != id
      {
        if snapshot.neighbors[i].id == id { return true; }
      }
      return false;
    }
  }

  // ---------------------------------------------------------------- convergence

  function ApplyAll(initial: Snapshot, updates: seq<Snapshot>): Snapshot {
    if updates == [] then initial
    else Apply(ApplyAll(initial, updates[..|updates| - 1]), updates[|updates| - 1]).0
  }

  /** A candidate for the final state: the initial snapshot, or a well-formed update newer than it. */
  predicate Candidate(s: Snapshot, initial: Snapshot, updates: seq<Snapshot>) {
    s == initial || (s in updates && s.epoch > initial.epoch && ValidEntries(s.neighbors))
  }

  /** No candidate is newer. */
  ghost predicate Newest(s: Snapshot, initial: Snapshot, updates: seq<Snapshot>) {
    Candidate(s, initial, updates) && forall t :: Candidate(t, initial, updates) ==> t.epoch <= s.epoch
  }

  /** Whatever the order and the repeats, the result is a newest candidate, and every step that changes it raises the epoch. */
  lemma {:induction false} EndsNewest(initial: Snapshot, updates: seq<Snapshot>)
    ensures Newest(ApplyAll(initial, updates), initial, updates)
    ensures updates != [] ==>
              var before, after := ApplyAll(initial, updates[..|updates| - 1]), ApplyAll(initial, updates);
              after == before || after.epoch > before.epoch
  {
    if updates != [] {
      var front, last := updates[..|updates| - 1], updates[|updates| - 1];
      assert updates == front + [last];
      EndsNewest(initial, front);
      var before, after := ApplyAll(initial, front), ApplyAll(initial, updates);
      assert forall t :: Candidate(t, initial, updates) <==>
               Candidate(t, initial, front) || (t == last && last.epoch > initial.epoch && ValidEntries(last.neighbors));
    }
  }

  /** At most one candidate carries the newest epoch. */
  ghost predicate Settled(initial: Snapshot, updates: seq<Snapshot>) {
    forall s, t :: Newest(s, initial, updates) && Newest(t, initial, updates) ==> s == t
  }

  predicate SameUpdates(a: seq<Snapshot>, b: seq<Snapshot>) {
    (forall u :: u in a ==> u in b) && (forall u :: u in b ==> u in a)
  }

  lemma NewestSame(initial: Snapshot, a: seq<Snapshot>, b: seq<Snapshot>)
    requires SameUpdates(a, b)
    ensures forall s :: Newest(s, initial, a) <==> Newest(s, initial, b)
  {
    assert forall s :: Candidate(s, initial, a) <==> Candidate(s, initial, b);
  }

  /** Putting an update first makes it win among the newest. */
  lemma PutFirst(initial: Snapshot, updates: seq<Snapshot>, s: Snapshot)
    requires Newest(s, initial, updates)
    ensures s == initial || ApplyAll(initial, [s] + updates) == s
  {
    if s != initial {
      assert [s][..0] == [];
      assert ApplyAll(initial, [s]) == s;
      forall u | u in updates && u.epoch > s.epoch ensures !ValidEntries(u.neighbors) {
        assert Candidate(initial, initial, updates) && !Candidate(u, initial, updates);
      }
      ValidOnly(initial, [s], updates);
    }
  }

  /** Updates that are stale or malformed against a state leave it alone. */
  lemma {:induction false} ValidOnly(initial: Snapshot, a: seq<Snapshot>, b: seq<Snapshot>)
    requires forall u :: u in b && u.epoch > ApplyAll(initial, a).epoch ==> !ValidEntries(u.neighbors)
    ensures ApplyAll(initial, a + b) == ApplyAll(initial, a)
  {
    if b == [] {
      assert a + b == a;
    } else {
      var front := b[..|b| - 1];
      assert b == front + [b[|b| - 1]];
      assert (a + b)[..|a + b| - 1] == a + front;
      ValidOnly(initial, a, front);
    }
  }

  /**
   * Delivery order and duplication never matter exactly when the newest epoch
   * names one snapshot. The condition is on the updates alone.
   */
  lemma ConvergesIffSettled(initial: Snapshot, updates: seq<Snapshot>)
    ensures Settled(initial, updates)
       <==> forall other :: SameUpdates(updates, other) ==> ApplyAll(initial, other) == ApplyAll(initial, updates)
  {
    if Settled(initial, updates) {
      forall other | SameUpdates(updates, other) ensures ApplyAll(initial, other) == ApplyAll(initial, updates) {
        NewestSame(initial, updates, other);
        EndsNewest(initial, updates);
        EndsNewest(initial, other);
      }
    } else {
      var s, t :| Newest(s, initial, updates) && Newest(t, initial, updates) && s != t;
      assert s.epoch == t.epoch && Candidate(initial, initial, updates);
      PutFirst(initial, updates, s);
      PutFirst(initial, updates, t);
      assert s in updates && t in updates;
      assert SameUpdates(updates, [s] + updates) && SameUpdates(updates, [t] + updates);
    }
  }

  /** Of two well-formed snapshots of one epoch, whichever comes first stays. */
  lemma FirstStays(initial: Snapshot, a: Snapshot, b: Snapshot)
    requires a.epoch == b.epoch > initial.epoch && ValidEntries(a.neighbors)
    ensures ApplyAll(initial, [a, b]) == a
  {
    assert [a, b][..1] == [a] && [a][..0] == [];
    assert ApplyAll(initial, [a]) == a;
  }

  function ZeroKey(): (key: Bytes)
    ensures |key| == KEY_BYTES
  {
    seq(KEY_BYTES, _ => 0)
  }

  /** So there are snapshots whose order matters. */
  lemma OrderMatters()
    ensures var none, a, b := Update(0, [], []), Update(1, [], []), Update(1, [Neighbor([1], ZeroKey())], []);
            && ValidEntries(a.neighbors) && ValidEntries(b.neighbors) && a != b
            && ApplyAll(none, [a, b]) == a && ApplyAll(none, [b, a]) == b
  {
    var none, a, b := Update(0, [], []), Update(1, [], []), Update(1, [Neighbor([1], ZeroKey())], []);
    FirstStays(none, a, b);
    FirstStays(none, b, a);
    hide ApplyAll;
    assert |a.neighbors| != |b.neighbors|;
  }
}
