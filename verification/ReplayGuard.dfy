/** The router's duplicate guards: how long exactly a key or a (source, nonce) pair is remembered. */
module ReplayGuard {
  import opened ByteCodec
  import opened Seqs
  import opened Lru

  /** Look a key up and insert it when it is missing. */
  function Touch<K(==), V>(c: seq<Entry<K, V>>, k: K, v: V, now: int, capacity: nat): (r: seq<Entry<K, V>>)
    requires capacity > 0
    ensures r != [] && r[0].key == k
  {
    if Has(c, k) then Get(c, k) else Put(c, k, v, now, capacity)
  }

  ghost predicate Bounded<K, V>(c: seq<Entry<K, V>>, capacity: nat) {
    && |c| <= capacity
    && forall i, j :: 0 <= i < j < |c| ==> c[i].key != c[j].key
  }

  /** `k` is present, and the keys in front of it are exactly `gap`. */
  ghost predicate Behind<K, V>(c: seq<Entry<K, V>>, k: K, v: V, gap: seq<K>) {
    && |gap| < |c| && c[|gap|].key == k && c[|gap|].value == v
    && Distinct(gap)
    && forall i :: 0 <= i < |gap| ==> c[i].key == gap[i]
  }

  /** The keys in front of `k` after one more key is touched. */
  ghost function Advance<K>(gap: seq<K>, k: K, x: K): seq<K> {
    if x == k then [] else [x] + Drop(gap, x)
  }

  ghost function Drop<K>(gap: seq<K>, x: K): (r: seq<K>)
    ensures |r| <= |gap|
    ensures forall y :: y in r ==> y in gap
  {
    if gap == [] then [] else if gap[0] == x then gap[1..] else [gap[0]] + Drop(gap[1..], x)
  }

  lemma {:induction false} DropAt<K>(gap: seq<K>, x: K)
    requires Distinct(gap)
    ensures Distinct(Drop(gap, x)) && x !in Drop(gap, x)
    ensures forall y :: y in gap && y != x ==> y in Drop(gap, x)
  {
    if gap != [] {
      assert gap == [gap[0]] + gap[1..];
      if gap[0] != x {
        DropAt(gap[1..], x);
        assert gap[0] !in gap[1..];
      }
    }
  }

  lemma DropSet<K>(gap: seq<K>, x: K)
    requires Distinct(gap)
    ensures Distinct([x] + Drop(gap, x)) && ToSet([x] + Drop(gap, x)) == ToSet(gap) + {x}
  {
    DropAt(gap, x);
  }

  lemma {:induction false} DropAbsent<K>(gap: seq<K>, x: K)
    requires x !in gap
    ensures Drop(gap, x) == gap
  {
    if gap != [] { DropAbsent(gap[1..], x); }
  }

  lemma {:induction false} DropIndex<K>(gap: seq<K>, i: nat)
    requires i < |gap| && gap[i] !in gap[..i]
    ensures Drop(gap, gap[i]) == gap[..i] + gap[i + 1..]
  {
    if i > 0 {
      var rest := gap[1..];
      assert gap[..i] == [gap[0]] + rest[..i - 1];
      assert rest[i - 1] == gap[i] && rest[i..] == gap[i + 1..];
      DropIndex(rest, i - 1);
    }
  }

  lemma GapIndex<K>(gap: seq<K>, j: nat)
    requires Distinct(gap) && j < |gap|
    ensures Drop(gap, gap[j]) == RemoveAt(gap, j)
  {
    DropIndex(gap, j);
  }

  lemma FrontBounded<K, V>(c: seq<Entry<K, V>>, e: Entry<K, V>, capacity: nat)
    requires Bounded(c, capacity) && |c| < capacity && forall i :: 0 <= i < |c| ==> c[i].key != e.key
    ensures Bounded([e] + c, capacity)
  {}

  lemma TouchBounded<K, V>(c: seq<Entry<K, V>>, x: K, v: V, now: int, capacity: nat)
    requires capacity > 0 && Bounded(c, capacity)
    ensures Bounded(Touch(c, x, v, now, capacity), capacity)
    ensures var t := Touch(c, x, v, now, capacity);
            && (Has(c, x) ==> t[0] == c[IndexOf(c, x)])
            && (!Has(c, x) ==> t[0] == Entry(x, v, now))
  {
    var i := IndexOf(c, x);
    if i < |c| {
      var rest := RemoveAt(c, i);
      forall j | 0 <= j < |rest| ensures rest[j].key != x && rest[j] == c[if j < i then j else j + 1] {}
      assert Bounded(rest, capacity);
      FrontBounded(rest, c[i], capacity);
    } else {
      FrontBounded(if |c| >= capacity then c[..|c| - 1] else c, Entry(x, v, now), capacity);
    }
  }

  lemma IndexIs<K, V>(c: seq<Entry<K, V>>, i: nat, capacity: nat)
    requires Bounded(c, capacity) && i < |c|
    ensures IndexOf(c, c[i].key) == i
  {}

  lemma TouchInFront<K, V>(c: seq<Entry<K, V>>, k: K, w: V, gap: seq<K>, j: nat, v: V, now: int, capacity: nat)
    requires capacity > 0 && Bounded(c, capacity) && Behind(c, k, w, gap) && j < |gap|
    ensures Behind(Touch(c, gap[j], v, now, capacity), k, w, [gap[j]] + RemoveAt(gap, j))
  {
    IndexIs(c, j, capacity);
    var t := Touch(c, gap[j], v, now, capacity);
    var gap' := [gap[j]] + RemoveAt(gap, j);
    assert t == [c[j]] + RemoveAt(c, j);
    assert t[|gap|] == c[|gap|];
    forall i | 0 <= i < |gap'| ensures t[i].key == gap'[i] {
      if i > 0 { assert t[i] == RemoveAt(c, j)[i - 1] && gap'[i] == RemoveAt(gap, j)[i - 1]; }
    }
    DropIndex(gap, j);
    DropSet(gap, gap[j]);
  }

  lemma TouchSelf<K, V>(c: seq<Entry<K, V>>, k: K, w: V, gap: seq<K>, v: V, now: int, capacity: nat)
    requires capacity > 0 && Bounded(c, capacity) && Behind(c, k, w, gap)
    ensures Behind(Touch(c, k, v, now, capacity), k, w, [])
  {
    IndexIs(c, |gap|, capacity);
  }

  lemma TouchElsewhere<K, V>(c: seq<Entry<K, V>>, k: K, w: V, gap: seq<K>, x: K, v: V, now: int, capacity: nat)
    requires capacity > 0 && Bounded(c, capacity) && Behind(c, k, w, gap) && x !in gap && x != k
    ensures var t := Touch(c, x, v, now, capacity);
            if |gap| + 1 < capacity then Behind(t, k, w, [x] + gap) else !Has(t, k)
  {
    var t := Touch(c, x, v, now, capacity);
    var i := IndexOf(c, x);
    assert Distinct([x] + gap) && i > |gap|;
    hide Distinct;
    if i == |c| && |c| >= capacity && |gap| + 1 == |c| {
      assert t == [Entry(x, v, now)] + c[..|gap|];
      assert forall n :: 0 <= n < |t| ==> t[n].key != k;
    } else {
      assert t[1..|gap| + 2] == c[..|gap| + 1];
      assert forall n :: 1 <= n <= |gap| + 1 ==> t[n] == c[n - 1];
    }
  }

  /**
   * One touch moves a remembered key back by one exactly when a key not yet in
   * front of it is touched, and forgets it exactly when that fills the cache.
   */
  lemma TouchBehind<K, V>(c: seq<Entry<K, V>>, k: K, w: V, gap: seq<K>, x: K, v: V, now: int, capacity: nat)
    requires capacity > 0 && Bounded(c, capacity) && Behind(c, k, w, gap)
    ensures var t := Touch(c, x, v, now, capacity);
            var gap' := Advance(gap, k, x);
            if |gap'| < capacity then Behind(t, k, w, gap') else !Has(t, k)
  {
    hide Distinct, Drop, RemoveAt;
    if x == k {
      TouchSelf(c, k, w, gap, v, now, capacity);
    } else if x in gap {
      var j :| 0 <= j < |gap| && gap[j] == x;
      GapIndex(gap, j);
      TouchInFront(c, k, w, gap, j, v, now, capacity);
    } else {
      DropAbsent(gap, x);
      TouchElsewhere(c, k, w, gap, x, v, now, capacity);
    }
  }

  // ---------------------------------------------------------------- one level: message ids

  function TouchAll<K(==)>(c: seq<Entry<K, int>>, keys: seq<K>, capacity: nat): seq<Entry<K, int>>
    requires capacity > 0
  {
    if keys == [] then c
    else Touch(TouchAll(c, keys[..|keys| - 1], capacity), keys[|keys| - 1], 0, 0, capacity)
  }

  lemma {:induction false} TouchAllBounded<K>(c: seq<Entry<K, int>>, keys: seq<K>, capacity: nat)
    requires capacity > 0 && Bounded(c, capacity)
    ensures Bounded(TouchAll(c, keys, capacity), capacity)
    ensures forall e :: e in TouchAll(c, keys, capacity) ==> e in c || e.key in keys
  {
    if keys != [] {
      TouchAllBounded(c, keys[..|keys| - 1], capacity);
      TouchBounded(TouchAll(c, keys[..|keys| - 1], capacity), keys[|keys| - 1], 0, 0, capacity);
    }
  }

  /** Distinct keys of `b`, most recently touched first. */
  ghost function Gap<K>(b: seq<K>, k: K): seq<K> {
    if b == [] then [] else Advance(Gap(b[..|b| - 1], k), k, b[|b| - 1])
  }

  lemma {:induction false} GapSet<K>(b: seq<K>, k: K)
    requires k !in b
    ensures Distinct(Gap(b, k)) && ToSet(Gap(b, k)) == ToSet(b) && |Gap(b, k)| == |ToSet(b)|
  {
    if b != [] {
      var front, x := b[..|b| - 1], b[|b| - 1];
      assert b == front + [x];
      GapSet(front, k);
      DropSet(Gap(front, k), x);
      assert ToSet(b) == ToSet(front) + {x};
      DistinctSize(Gap(b, k));
    }
  }

  /** From the moment `k` is in front, it is remembered exactly while fewer than `capacity` distinct other keys follow. */
  lemma {:induction false} FrontDistance<K>(c: seq<Entry<K, int>>, k: K, b: seq<K>, capacity: nat)
    requires capacity > 0 && Bounded(c, capacity) && c != [] && c[0].key == k && k !in b
    ensures Has(TouchAll(c, b, capacity), k) <==> |ToSet(b)| < capacity
    ensures |ToSet(b)| < capacity ==> Behind(TouchAll(c, b, capacity), k, c[0].value, Gap(b, k))
  {
    GapSet(b, k);
    if b != [] {
      var front, x := b[..|b| - 1], b[|b| - 1];
      assert b == front + [x];
      FrontDistance(c, k, front, capacity);
      TouchAllBounded(c, front, capacity);
      GapSet(front, k);
      assert ToSet(b) == ToSet(front) + {x};
      var t := TouchAll(c, front, capacity);
      if |ToSet(front)| < capacity {
        TouchBehind(t, k, c[0].value, Gap(front, k), x, 0, 0, capacity);
      } else {
        NotTouched(t, k, x, capacity);
        assert x in ToSet(front) ==> ToSet(b) == ToSet(front);
      }
    }
  }

  lemma NotTouched<K>(c: seq<Entry<K, int>>, k: K, x: K, capacity: nat)
    requires capacity > 0 && !Has(c, k) && x != k
    ensures !Has(Touch(c, x, 0, 0, capacity), k)
  {
    var t := Touch(c, x, 0, 0, capacity);
    assert forall e :: e in t ==> e.key == x || e in c;
    assert forall e :: e in c ==> e.key != k;
  }

  lemma {:induction false} TouchAllAppend<K>(c: seq<Entry<K, int>>, a: seq<K>, b: seq<K>, capacity: nat)
    requires capacity > 0
    ensures TouchAll(c, a + b, capacity) == TouchAll(TouchAll(c, a, capacity), b, capacity)
  {
    if b == [] {
      assert a + b == a;
    } else {
      assert (a + b)[..|a + b| - 1] == a + b[..|b| - 1];
      TouchAllAppend(c, a, b[..|b| - 1], capacity);
    }
  }

  /**
   * The exact window of the message-id guard. After any history, an id counts
   * as seen exactly when it occurred and fewer than `capacity` distinct other
   * ids were checked since its last occurrence.
   */
  lemma SeenWindow<K>(a: seq<K>, k: K, b: seq<K>, capacity: nat)
    requires capacity > 0 && k !in b
    ensures Has(TouchAll([], a + [k] + b, capacity), k) <==> |ToSet(b)| < capacity
  {
    TouchAllAppend([], a + [k], b, capacity);
    TouchAllAppend([], a, [k], capacity);
    TouchAllBounded([], a, capacity);
    var c := TouchAll([], a, capacity);
    assert [k][..0] == [];
    TouchBounded(c, k, 0, 0, capacity);
    FrontDistance(Touch(c, k, 0, 0, capacity), k, b, capacity);
  }

  lemma NeverSeen<K>(log: seq<K>, k: K, capacity: nat)
    requires capacity > 0 && k !in log
    ensures !Has(TouchAll([], log, capacity), k)
  {
    TouchAllBounded([], log, capacity);
  }

  // ---------------------------------------------------------------- two levels: a nonce window per source

  type Id = Bytes
  type Window = seq<Entry<nat, int>>
  type Sources = seq<Entry<Id, Window>>

  datatype Caps = Caps(maxTrackedSources: nat, nonceCapacity: nat)

  predicate ValidCaps(caps: Caps) { caps.maxTrackedSources > 0 && caps.nonceCapacity > 0 }

  /** Whether the pair is in the window of its source. */
  predicate Remembered(g: Sources, s: Id, n: nat) {
    Has(g, s) && Has(g[IndexOf(g, s)].value, n)
  }

  /** The window of the source is fetched or created, then the nonce is checked and inserted in it. */
  function NonceStep(g: Sources, s: Id, n: nat, caps: Caps): (r: Sources)
    requires ValidCaps(caps)
    ensures r != [] && r[0].key == s
  {
    var t := Touch(g, s, [], 0, caps.maxTrackedSources);
    t[0 := t[0].(value := Touch(t[0].value, n, 0, 0, caps.nonceCapacity))]
  }

  /** Fetches or creates the window of the source, then checks and inserts the nonce in it. */
  method CheckNonce(g: Sources, source: Id, nonce: nat, caps: Caps) returns (seen: bool, r: Sources)
    requires ValidCaps(caps)
    ensures seen == Remembered(g, source, nonce) && r == NonceStep(g, source, nonce, caps)
  {
    r := if Has(g, source) then Get(g, source) else Put(g, source, [], 0, caps.maxTrackedSources);
    var window := r[0].value;
    seen := Has(window, nonce);
    window := if seen then Get(window, nonce) else Put(window, nonce, 0, 0, caps.nonceCapacity);
    r := r[0 := r[0].(value := window)];
  }

  /** The guard as an object whose windows are updated in place. */
  class NonceGuard {
    const caps: Caps
    var sources: Sources

    constructor (caps: Caps)
      ensures this.caps == caps && sources == []
    {
      this.caps := caps;
      sources := [];
    }

    method SeenAndInsert(source: Id, nonce: nat) returns (seen: bool)
      requires ValidCaps(caps)
      modifies this
      ensures seen == Remembered(old(sources), source, nonce)
      ensures sources == NonceStep(old(sources), source, nonce, caps)
    {
      seen, sources := CheckNonce(sources, source, nonce, caps);
    }
  }

  function GuardAll(log: seq<(Id, nat)>, caps: Caps): Sources
    requires ValidCaps(caps)
  {
    if log == [] then []
    else NonceStep(GuardAll(log[..|log| - 1], caps), log[|log| - 1].0, log[|log| - 1].1, caps)
  }

  ghost predicate GuardValid(g: Sources, caps: Caps) {
    Bounded(g, caps.maxTrackedSources) && forall e :: e in g ==> Bounded(e.value, caps.nonceCapacity)
  }

  lemma NonceStepValid(g: Sources, s: Id, n: nat, caps: Caps)
    requires ValidCaps(caps) && GuardValid(g, caps)
    ensures GuardValid(NonceStep(g, s, n, caps), caps)
  {
    hide Bounded;
    EmptyBounded(caps.nonceCapacity);
    TouchMembers(g, s, [], caps.maxTrackedSources);
    var t := Touch(g, s, [], 0, caps.maxTrackedSources);
    TouchBounded(g, s, [], 0, caps.maxTrackedSources);
    assert t[0] in t;
    TouchBounded(t[0].value, n, 0, 0, caps.nonceCapacity);
    SameKeysBounded(t, t[0].(value := Touch(t[0].value, n, 0, 0, caps.nonceCapacity)), caps.maxTrackedSources);
  }

  lemma EmptyBounded(capacity: nat)
    ensures Bounded<nat, int>([], capacity)
  {}

  lemma SameKeysBounded(t: Sources, e: Entry<Id, Window>, capacity: nat)
    requires Bounded(t, capacity) && t != [] && e.key == t[0].key
    ensures Bounded(t[0 := e], capacity)
  {}

  lemma TouchMembers<K, V>(c: seq<Entry<K, V>>, x: K, v: V, capacity: nat)
    requires capacity > 0
    ensures forall e :: e in Touch(c, x, v, 0, capacity) ==> e in c || e == Entry(x, v, 0)
  {}

  lemma {:induction false} GuardAllValid(log: seq<(Id, nat)>, caps: Caps)
    requires ValidCaps(caps)
    ensures GuardValid(GuardAll(log, caps), caps)
  {
    if log != [] {
      GuardAllValid(log[..|log| - 1], caps);
      NonceStepValid(GuardAll(log[..|log| - 1], caps), log[|log| - 1].0, log[|log| - 1].1, caps);
    }
  }

  function SourcesOf(b: seq<(Id, nat)>): (r: seq<Id>)
    ensures |r| == |b|
    ensures forall i :: 0 <= i < |b| ==> r[i] == b[i].0
  {
    seq(|b|, i requires 0 <= i < |b| => b[i].0)
  }

  /** The nonces of one source, in call order. */
  function NoncesOf(b: seq<(Id, nat)>, s: Id): seq<nat> {
    if b == [] then []
    else NoncesOf(b[..|b| - 1], s) + (if b[|b| - 1].0 == s then [b[|b| - 1].1] else [])
  }

  lemma {:induction false} NoncesOfMember(b: seq<(Id, nat)>, s: Id, n: nat)
    ensures n in NoncesOf(b, s) <==> (s, n) in b
  {
    if b != [] {
      NoncesOfMember(b[..|b| - 1], s, n);
      assert b == b[..|b| - 1] + [b[|b| - 1]];
    }
  }

  /** Since the source was last used, never were `max` distinct other sources used in a row. */
  ghost predicate Kept(b: seq<(Id, nat)>, s: Id, max: nat) {
    b == [] || (Kept(b[..|b| - 1], s, max) && |Gap(SourcesOf(b), s)| < max)
  }

  ghost predicate Tracks(g: Sources, s: Id, n: nat, w: Window, b: seq<(Id, nat)>, caps: Caps)
    requires ValidCaps(caps)
  {
    if Kept(b, s, caps.maxTrackedSources)
    then Behind(g, s, TouchAll(w, NoncesOf(b, s), caps.nonceCapacity), Gap(SourcesOf(b), s))
    else !Remembered(g, s, n)
  }

  /** A pair that is not remembered stays so while only other pairs are checked. */
  lemma NotRemembered(g: Sources, s: Id, n: nat, x: Id, m: nat, caps: Caps)
    requires ValidCaps(caps) && GuardValid(g, caps) && !Remembered(g, s, n) && (x, m) != (s, n)
    ensures !Remembered(NonceStep(g, x, m, caps), s, n)
  {
    var t := Touch(g, x, [], 0, caps.maxTrackedSources);
    TouchMembers(g, x, [], caps.maxTrackedSources);
    TouchBounded(g, x, [], 0, caps.maxTrackedSources);
    var r := NonceStep(g, x, m, caps);
    forall e | e in g && e.key == s ensures !Has(e.value, n) {
      var i :| 0 <= i < |g| && g[i] == e;
      IndexIs(g, i, caps.maxTrackedSources);
    }
    if Has(r, s) {
      var i := IndexOf(r, s);
      if i == 0 {
        assert x == s && !Has(t[0].value, n);
        NotTouched(t[0].value, n, m, caps.nonceCapacity);
      } else {
        assert r[i] == t[i] && t[i] in t;
      }
    }
  }

  lemma {:induction false} TrackStep(g: Sources, s: Id, n: nat, w: Window, b: seq<(Id, nat)>, x: Id, m: nat, caps: Caps)
    requires ValidCaps(caps) && GuardValid(g, caps) && Tracks(g, s, n, w, b, caps) && (x, m) != (s, n)
    ensures Tracks(NonceStep(g, x, m, caps), s, n, w, b + [(x, m)], caps)
  {
    var b' := b + [(x, m)];
    assert b'[..|b'| - 1] == b;
    if Kept(b, s, caps.maxTrackedSources) {
      var gap := Gap(SourcesOf(b), s);
      var v := TouchAll(w, NoncesOf(b, s), caps.nonceCapacity);
      assert SourcesOf(b') == SourcesOf(b) + [x];
      assert SourcesOf(b')[..|b|] == SourcesOf(b);
      assert Gap(SourcesOf(b'), s) == Advance(gap, s, x);
      TouchBehind(g, s, v, gap, x, [], 0, caps.maxTrackedSources);
      TrackUpdate(g, s, n, v, Advance(gap, s, x), x, m, caps);
      if x == s {
        assert NoncesOf(b', s)[..|NoncesOf(b', s)| - 1] == NoncesOf(b, s);
      } else {
        assert NoncesOf(b', s) == NoncesOf(b, s);
      }
    } else {
      NotRemembered(g, s, n, x, m, caps);
    }
  }

  /** Updating the window in front touches only the source just used. */
  lemma TrackUpdate(g: Sources, s: Id, n: nat, v: Window, gap: seq<Id>, x: Id, m: nat, caps: Caps)
    requires ValidCaps(caps) && (x == s ==> gap == []) && (x != s ==> gap != [] && gap[0] == x)
    requires var t := Touch(g, x, [], 0, caps.maxTrackedSources);
             if |gap| < caps.maxTrackedSources then Behind(t, s, v, gap) else !Has(t, s)
    ensures var r := NonceStep(g, x, m, caps);
            if |gap| < caps.maxTrackedSources
            then Behind(r, s, if x == s then Touch(v, m, 0, 0, caps.nonceCapacity) else v, gap)
            else !Remembered(r, s, n)
  {
    var t := Touch(g, x, [], 0, caps.maxTrackedSources);
    var r := NonceStep(g, x, m, caps);
    if |gap| < caps.maxTrackedSources {
      assert forall i :: 0 <= i < |gap| ==> t[i].key == gap[i];
    } else {
      assert forall i :: 0 <= i < |r| ==> r[i].key == t[i].key;
    }
  }

  lemma {:induction false} TrackAll(a: seq<(Id, nat)>, s: Id, n: nat, b: seq<(Id, nat)>, caps: Caps)
    requires ValidCaps(caps) && (s, n) !in b
    ensures Tracks(GuardAll(a + [(s, n)] + b, caps), s, n, NonceStep(GuardAll(a, caps), s, n, caps)[0].value, b, caps)
  {
    var log := a + [(s, n)];
    if b == [] {
      assert log + b == log && log[..|log| - 1] == a;
    } else {
      var front, last := b[..|b| - 1], b[|b| - 1];
      assert b == front + [last];
      assert (log + b)[..|log + b| - 1] == log + front;
      TrackAll(a, s, n, front, caps);
      GuardAllValid(log + front, caps);
      TrackStep(GuardAll(log + front, caps), s, n, NonceStep(GuardAll(a, caps), s, n, caps)[0].value,
                front, last.0, last.1, caps);
    }
  }

  /**
   * The exact replay window. After the last check of (s, n), the pair is still
   * rejected exactly when its source was never pushed out by
   * `maxTrackedSources` distinct others and fewer than `nonceCapacity` distinct
   * other nonces of that source were checked.
   */
  lemma NonceWindow(a: seq<(Id, nat)>, s: Id, n: nat, b: seq<(Id, nat)>, caps: Caps)
    requires ValidCaps(caps) && (s, n) !in b
    ensures Remembered(GuardAll(a + [(s, n)] + b, caps), s, n)
       <==> Kept(b, s, caps.maxTrackedSources) && |ToSet(NoncesOf(b, s))| < caps.nonceCapacity
  {
    TrackAll(a, s, n, b, caps);
    GuardAllValid(a + [(s, n)] + b, caps);
    if Kept(b, s, caps.maxTrackedSources) {
      var g := GuardAll(a + [(s, n)] + b, caps);
      IndexIs(g, |Gap(SourcesOf(b), s)|, caps.maxTrackedSources);
      var first := NonceStep(GuardAll(a, caps), s, n, caps);
      GuardAllValid(a, caps);
      NonceStepValid(GuardAll(a, caps), s, n, caps);
      assert first[0] in first;
      NoncesOfMember(b, s, n);
      FrontDistance(first[0].value, n, NoncesOf(b, s), caps.nonceCapacity);
    }
  }

  lemma {:induction false} GapWithin<K>(b: seq<K>, k: K)
    ensures Distinct(Gap(b, k)) && ToSet(Gap(b, k)) <= ToSet(b) - {k}
  {
    if b != [] {
      var front, x := b[..|b| - 1], b[|b| - 1];
      assert b == front + [x];
      GapWithin(front, k);
      DropSet(Gap(front, k), x);
    }
  }

  lemma SubsetSize<T>(a: set<T>, b: set<T>)
    requires a <= b
    ensures |a| <= |b|
  {
    assert b == a + (b - a);
  }

  lemma {:induction false} KeptIfFewSources(b: seq<(Id, nat)>, s: Id, max: nat)
    requires |ToSet(SourcesOf(b)) - {s}| < max
    ensures Kept(b, s, max)
  {
    GapWithin(SourcesOf(b), s);
    DistinctSize(Gap(SourcesOf(b), s));
    SubsetSize(ToSet(Gap(SourcesOf(b), s)), ToSet(SourcesOf(b)) - {s});
    if b != [] {
      var front := b[..|b| - 1];
      assert SourcesOf(b) == SourcesOf(front) + [b[|b| - 1].0];
      SubsetSize(ToSet(SourcesOf(front)) - {s}, ToSet(SourcesOf(b)) - {s});
      KeptIfFewSources(front, s, max);
    }
  }

  /**
   * A pair checked before passes again only after `nonceCapacity` distinct
   * other nonces of its source or `maxTrackedSources` distinct other sources.
   */
  lemma ReplayNeedsChurn(a: seq<(Id, nat)>, s: Id, n: nat, b: seq<(Id, nat)>, caps: Caps)
    requires ValidCaps(caps) && (s, n) !in b
    requires !Remembered(GuardAll(a + [(s, n)] + b, caps), s, n)
    ensures |ToSet(NoncesOf(b, s))| >= caps.nonceCapacity || |ToSet(SourcesOf(b)) - {s}| >= caps.maxTrackedSources
  {
    NonceWindow(a, s, n, b, caps);
    if |ToSet(SourcesOf(b)) - {s}| < caps.maxTrackedSources {
      KeptIfFewSources(b, s, caps.maxTrackedSources);
    }
  }

  /** The same when the pair was checked again, and rejected, in between. */
  lemma {:induction false} ChurnSince(a: seq<(Id, nat)>, s: Id, n: nat, b: seq<(Id, nat)>, caps: Caps)
    requires ValidCaps(caps) && !Remembered(GuardAll(a + [(s, n)] + b, caps), s, n)
    ensures |ToSet(NoncesOf(b, s)) - {n}| >= caps.nonceCapacity || |ToSet(SourcesOf(b)) - {s}| >= caps.maxTrackedSources
    decreases |b|
  {
    hide GuardAll, Remembered, NoncesOf, SourcesOf, ToSet;
    if (s, n) !in b {
      ReplayNeedsChurn(a, s, n, b, caps);
      NoncesOfMember(b, s, n);
      SetWithout(NoncesOf(b, s), n);
    } else {
      var i :| 0 <= i < |b| && b[i] == (s, n);
      var before, after := b[..i], b[i + 1..];
      assert b == before + [(s, n)] + after;
      assert a + [(s, n)] + b == (a + [(s, n)] + before) + [(s, n)] + after;
      ChurnSince(a + [(s, n)] + before, s, n, after, caps);
      LaterChurn(b, i + 1, s, n);
    }
  }

  lemma SetWithout<T>(s: seq<T>, x: T)
    requires x !in s
    ensures ToSet(s) - {x} == ToSet(s)
  {}

  /** What a later part of a log holds, the log holds. */
  lemma LaterChurn(b: seq<(Id, nat)>, i: nat, s: Id, n: nat)
    requires i <= |b|
    ensures |ToSet(NoncesOf(b[i..], s)) - {n}| <= |ToSet(NoncesOf(b, s)) - {n}|
    ensures |ToSet(SourcesOf(b[i..])) - {s}| <= |ToSet(SourcesOf(b)) - {s}|
  {
    forall m ensures m in NoncesOf(b[i..], s) ==> m in NoncesOf(b, s) {
      NoncesOfMember(b[i..], s, m);
      NoncesOfMember(b, s, m);
    }
    SubsetSize(ToSet(NoncesOf(b[i..], s)) - {n}, ToSet(NoncesOf(b, s)) - {n});
    forall x | x in SourcesOf(b[i..]) ensures x in SourcesOf(b) {
      var k :| 0 <= k < |b[i..]| && SourcesOf(b[i..])[k] == x;
      assert SourcesOf(b)[i + k] == x;
    }
    SubsetSize(ToSet(SourcesOf(b[i..])) - {s}, ToSet(SourcesOf(b)) - {s});
  }

  /** And for the id guard. */
  lemma {:induction false} IdChurnSince<K>(a: seq<K>, k: K, b: seq<K>, capacity: nat)
    requires capacity > 0 && !Has(TouchAll([], a + [k] + b, capacity), k)
    ensures |ToSet(b) - {k}| >= capacity
    decreases |b|
  {
    if k !in b {
      SeenWindow(a, k, b, capacity);
      assert ToSet(b) - {k} == ToSet(b);
    } else {
      var i :| 0 <= i < |b| && b[i] == k;
      var before, after := b[..i], b[i + 1..];
      assert b == before + [k] + after;
      assert a + [k] + b == (a + [k] + before) + [k] + after;
      IdChurnSince(a + [k] + before, k, after, capacity);
      SubsetSize(ToSet(after) - {k}, ToSet(b) - {k});
    }
  }
}
