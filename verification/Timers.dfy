/** Timers over the loop's shared wheel: arming, firing, cancelling, abandoning, shutting down. */
module Timers {
  import opened ByteCodec
  import opened Seqs

  datatype Slot = Slot(deadline: int, wait: nat)
  datatype Outcome = Due | Canceled

  /** A completion queued on the loop. */
  datatype Posted = Posted(wait: nat, outcome: Outcome)

  datatype Timer = Timer(wait: Option<nat>, deadline: int)

  /**
   * Waits are numbered in arming order. A wait is detached once the loop has
   * removed it from the wheel, abandoned once its timer is gone. `dropped`
   * lists the waits whose handler was discarded.
   */
  datatype Timers = Timers(
    wheel: seq<Slot>, detached: seq<bool>, abandoned: seq<bool>, timers: map<nat, Timer>,
    posted: seq<Posted>, dropped: seq<nat>)

  datatype Op =
    | Create(timer: nat)
    | ExpiresAfter(timer: nat, now: int, delay: int)
    | AsyncWait(timer: nat, handler: bool)
    | Cancel(timer: nat)
    | Destroy(timer: nat)
    | FireDue(now: int)
    | Shutdown

  // ---------------------------------------------------------------- the wheel

  predicate Before(a: Slot, b: Slot) { a.deadline < b.deadline || (a.deadline == b.deadline && a.wait < b.wait) }

  /** By deadline, ties in arming order. */
  ghost predicate Sorted(wheel: seq<Slot>) { forall i, j :: 0 <= i < j < |wheel| ==> Before(wheel[i], wheel[j]) }

  /** How many leading slots are due by `now`. */
  function DueCount(wheel: seq<Slot>, now: int): (k: nat)
    ensures k <= |wheel| && (forall i :: 0 <= i < k ==> wheel[i].deadline <= now)
    ensures k < |wheel| ==> wheel[k].deadline > now
  {
    if wheel == [] || wheel[0].deadline > now then 0 else 1 + DueCount(wheel[1..], now)
  }

  function Insert(wheel: seq<Slot>, slot: Slot): seq<Slot> {
    var k := DueCount(wheel, slot.deadline);
    wheel[..k] + [slot] + wheel[k..]
  }

  predicate Holds(wheel: seq<Slot>, wait: nat) { exists i :: 0 <= i < |wheel| && wheel[i].wait == wait }

  function SlotOf(wheel: seq<Slot>, wait: nat): (i: nat)
    requires Holds(wheel, wait)
    ensures i < |wheel| && wheel[i].wait == wait
  {
    if wheel[0].wait == wait then 0
    else
      assert Holds(wheel[1..], wait) by {
        var i :| 0 <= i < |wheel| && wheel[i].wait == wait;
        assert wheel[1..][i - 1].wait == wait;
      }
      1 + SlotOf(wheel[1..], wait)
  }

  // ---------------------------------------------------------------- operations

  ghost predicate InRange(s: Timers) {
    |s.detached| == |s.abandoned| && forall i :: 0 <= i < |s.wheel| ==> s.wheel[i].wait < |s.detached|
  }

  /** A timer's wait, unless the loop removed it, has its slot in the wheel. */
  ghost predicate SlotsLive(s: Timers) {
    && InRange(s)
    && (forall t :: t in s.timers && s.timers[t].wait.Some? ==>
          s.timers[t].wait.value < |s.detached|
          && (!s.detached[s.timers[t].wait.value] ==> Holds(s.wheel, s.timers[t].wait.value)))
  }

  /** Cancels the timer's wait, if the loop has not removed it already. */
  ghost function Displace(s: Timers, t: nat): Timers
    requires SlotsLive(s) && t in s.timers
  {
    var timer := s.timers[t];
    if timer.wait.None? then s
    else
      var w := timer.wait.value;
      var s1 := s.(timers := s.timers[t := timer.(wait := None)]);
      if s.detached[w] then s1
      else s1.(wheel := RemoveAt(s.wheel, SlotOf(s.wheel, w)), posted := s.posted + [Posted(w, Canceled)])
  }

  /** Removes the head of the wheel; its handler is queued unless its timer is gone. */
  function Pop(s: Timers, outcome: Outcome): Timers
    requires s.wheel != [] && s.wheel[0].wait < |s.detached| == |s.abandoned|
  {
    var w := s.wheel[0].wait;
    var s1 := s.(wheel := s.wheel[1..], detached := s.detached[w := true]);
    if s.abandoned[w] then s1.(dropped := s.dropped + [w]) else s1.(posted := s.posted + [Posted(w, outcome)])
  }

  /** Pops `k` slots. */
  ghost function PopAll(s: Timers, k: nat, outcome: Outcome): Timers
    requires k <= |s.wheel| && InRange(s)
    decreases k
  {
    if k == 0 then s else PopAll(Pop(s, outcome), k - 1, outcome)
  }

  ghost predicate Enabled(s: Timers, op: Op) {
    match op
    case Create(t) => t !in s.timers
    case FireDue(_) => true
    case Shutdown => true
    case _ => op.timer in s.timers
  }

  ghost function Apply(s: Timers, op: Op): Timers
    requires SlotsLive(s) && Enabled(s, op)
  {
    match op
    case Create(t) => s.(timers := s.timers[t := Timer(None, 0)])
    case ExpiresAfter(t, now, delay) =>
      var s1 := Displace(s, t);
      s1.(timers := s1.timers[t := s1.timers[t].(deadline := now + delay)])
    case AsyncWait(t, handler) =>
      if s.timers[t].wait.Some? || !handler then s    // throws
      else s.(wheel := Insert(s.wheel, Slot(s.timers[t].deadline, |s.detached|)),
              detached := s.detached + [false], abandoned := s.abandoned + [false],
              timers := s.timers[t := s.timers[t].(wait := Some(|s.detached|))])
    case Cancel(t) => Displace(s, t)
    case Destroy(t) =>
      var s1 := s.(timers := s.timers - {t});
      if s.timers[t].wait.None? then s1 else s1.(abandoned := s.abandoned[s.timers[t].wait.value := true])
    case FireDue(now) => PopAll(s, DueCount(s.wheel, now), Due)
    case Shutdown => PopAll(s, |s.wheel|, Canceled)
  }

  // ---------------------------------------------------------------- invariant

  function SlotWait(): Slot -> nat { (x: Slot) => x.wait }
  function PostedWait(): Posted -> nat { (x: Posted) => x.wait }
  function Itself(): nat -> nat { (x: nat) => x }

  /** Where every wait is, with multiplicity. */
  function Places(s: Timers): multiset<nat> {
    Bag(s.wheel, SlotWait()) + Bag(s.posted, PostedWait()) + Bag(s.dropped, Itself())
  }

  /** Every wait ever armed is in exactly one place. */
  ghost predicate OnePlace(s: Timers) {
    forall w: nat :: Places(s)[w] == if w < |s.detached| then 1 else 0
  }

  /** A wait belongs to at most one timer; detached ones have left the wheel; abandoned ones have no timer. */
  ghost predicate Owned(s: Timers)
    requires SlotsLive(s)
  {
    && (forall t, u :: t in s.timers && u in s.timers && t != u && s.timers[t].wait.Some? ==> s.timers[t].wait != s.timers[u].wait)
    && (forall i :: 0 <= i < |s.wheel| ==> !s.detached[s.wheel[i].wait])
    && (forall i :: 0 <= i < |s.dropped| ==> s.dropped[i] < |s.abandoned| && s.abandoned[s.dropped[i]])
    && (forall t :: t in s.timers && s.timers[t].wait.Some? ==> !s.abandoned[s.timers[t].wait.value])
  }

  ghost predicate Inv(s: Timers) {
    SlotsLive(s) && Owned(s) && Sorted(s.wheel) && OnePlace(s)
  }

  lemma InsertSorted(wheel: seq<Slot>, slot: Slot)
    requires Sorted(wheel) && forall i :: 0 <= i < |wheel| ==> wheel[i].wait < slot.wait
    ensures Sorted(Insert(wheel, slot))
  {
    var k := DueCount(wheel, slot.deadline);
    forall i | k <= i < |wheel| ensures Before(slot, wheel[i]) {
      if i > k { assert Before(wheel[k], wheel[i]); }
    }
  }

  lemma InsertBag(wheel: seq<Slot>, slot: Slot)
    ensures Bag(Insert(wheel, slot), SlotWait()) == Bag(wheel, SlotWait()) + multiset{slot.wait}
  {
    hide DueCount;
    var k := DueCount(wheel, slot.deadline);
    BagRemove(Insert(wheel, slot), k, SlotWait());
    assert RemoveAt(Insert(wheel, slot), k) == wheel;
  }

  lemma RemoveSorted(wheel: seq<Slot>, i: nat)
    requires Sorted(wheel) && i < |wheel|
    ensures Sorted(RemoveAt(wheel, i))
  {}

  lemma HoldsRest(wheel: seq<Slot>, i: nat, w: nat)
    requires i < |wheel| && Holds(wheel, w) && wheel[i].wait != w
    ensures Holds(RemoveAt(wheel, i), w)
  {
    var j :| 0 <= j < |wheel| && wheel[j].wait == w;
    assert RemoveAt(wheel, i)[if j < i then j else j - 1].wait == w;
  }

  lemma HoldsMore(wheel: seq<Slot>, slot: Slot, w: nat)
    requires Holds(wheel, w) || slot.wait == w
    ensures Holds(Insert(wheel, slot), w)
  {
    var k := DueCount(wheel, slot.deadline);
    if slot.wait == w {
      assert Insert(wheel, slot)[k].wait == w;
    } else {
      var j :| 0 <= j < |wheel| && wheel[j].wait == w;
      assert Insert(wheel, slot)[if j < k then j else j + 1].wait == w;
    }
  }

  /** No wait has two slots. */
  lemma OneSlot(s: Timers, i: nat, j: nat)
    requires OnePlace(s) && i < j < |s.wheel|
    ensures s.wheel[i].wait != s.wheel[j].wait
  {
    hide Bag;
    var w := s.wheel[i].wait;
    BagRemove(s.wheel, j, SlotWait());
    BagRemove(RemoveAt(s.wheel, j), i, SlotWait());
    assert RemoveAt(s.wheel, j)[i] == s.wheel[i];
    assert Places(s)[w] <= 1;
  }

  // ---------------------------------------------------------------- every operation keeps it

  lemma DisplaceInv(s: Timers, t: nat)
    requires Inv(s) && t in s.timers
    ensures Inv(Displace(s, t)) && t in Displace(s, t).timers && Displace(s, t).timers[t].wait.None?
  {
    if s.timers[t].wait.Some? && !s.detached[s.timers[t].wait.value] {
      CancelInv(s, t);
    } else {
      assert OnePlace(Displace(s, t)) by { SamePlaces(s, Displace(s, t)); }
    }
  }

  lemma CancelInv(s: Timers, t: nat)
    requires Inv(s) && t in s.timers && s.timers[t].wait.Some? && !s.detached[s.timers[t].wait.value]
    ensures Inv(Displace(s, t))
  {
    var i := SlotOf(s.wheel, s.timers[t].wait.value);
    CancelPlaces(s, Displace(s, t), i, s.timers[t].wait.value);
    RemoveSorted(s.wheel, i);
    CancelLive(s, t);
    hide OnePlace, Sorted, SlotOf, Holds;
  }

  lemma CancelLive(s: Timers, t: nat)
    requires SlotsLive(s) && Owned(s) && t in s.timers && s.timers[t].wait.Some? && !s.detached[s.timers[t].wait.value]
    ensures SlotsLive(Displace(s, t))
  {
    var r, i := Displace(s, t), SlotOf(s.wheel, s.timers[t].wait.value);
    hide SlotOf;
    forall u | u in r.timers && r.timers[u].wait.Some? && !r.detached[r.timers[u].wait.value]
      ensures Holds(r.wheel, r.timers[u].wait.value)
    {
      HoldsRest(s.wheel, i, r.timers[u].wait.value);
    }
    hide Holds;
  }

  lemma SamePlaces(s: Timers, r: Timers)
    requires OnePlace(s) && r.wheel == s.wheel && r.posted == s.posted && r.dropped == s.dropped && |r.detached| == |s.detached|
    ensures OnePlace(r)
  {
    hide Bag;
    assert Places(r) == Places(s);
  }

  lemma CancelPlaces(s: Timers, r: Timers, i: nat, w: nat)
    requires OnePlace(s) && i < |s.wheel| && s.wheel[i].wait == w && |r.detached| == |s.detached|
    requires r.wheel == RemoveAt(s.wheel, i) && r.posted == s.posted + [Posted(w, Canceled)] && r.dropped == s.dropped
    ensures OnePlace(r)
  {
    hide Bag;
    BagRemove(s.wheel, i, SlotWait());
    BagAdd(s.posted, Posted(w, Canceled), PostedWait());
    assert Places(r) == Places(s);
  }

  lemma PopPlaces(s: Timers, outcome: Outcome)
    requires OnePlace(s) && s.wheel != [] && s.wheel[0].wait < |s.detached| == |s.abandoned|
    ensures OnePlace(Pop(s, outcome))
  {
    hide Bag;
    var w := s.wheel[0].wait;
    var r := Pop(s, outcome);
    BagRemove(s.wheel, 0, SlotWait());
    assert RemoveAt(s.wheel, 0) == s.wheel[1..];
    BagAdd(s.posted, Posted(w, outcome), PostedWait());
    BagAdd(s.dropped, w, Itself());
    assert Places(r) == Places(s);
  }

  lemma PopInv(s: Timers, outcome: Outcome)
    requires Inv(s) && s.wheel != []
    ensures Inv(Pop(s, outcome))
  {
    PopPlaces(s, outcome);
    PopLive(s, outcome);
    PopOwned(s, outcome);
    hide OnePlace, Owned, SlotsLive;
  }

  lemma PopLive(s: Timers, outcome: Outcome)
    requires SlotsLive(s) && s.wheel != []
    ensures SlotsLive(Pop(s, outcome))
  {
    var r := Pop(s, outcome);
    assert RemoveAt(s.wheel, 0) == r.wheel;
    forall t | t in r.timers && r.timers[t].wait.Some? && !r.detached[r.timers[t].wait.value]
      ensures Holds(r.wheel, r.timers[t].wait.value)
    {
      HoldsRest(s.wheel, 0, r.timers[t].wait.value);
    }
    hide Holds, RemoveAt;
  }

  lemma PopOwned(s: Timers, outcome: Outcome)
    requires Inv(s) && s.wheel != [] && SlotsLive(Pop(s, outcome))
    ensures Owned(Pop(s, outcome))
  {
    var r := Pop(s, outcome);
    forall i | 0 <= i < |r.wheel| ensures r.wheel[i].wait != s.wheel[0].wait { OneSlot(s, 0, i + 1); }
    hide OnePlace, Holds, Sorted;
  }

  lemma {:induction false} PopAllInv(s: Timers, k: nat, outcome: Outcome)
    requires Inv(s) && k <= |s.wheel|
    ensures Inv(PopAll(s, k, outcome))
    decreases k
  {
    if k > 0 {
      PopInv(s, outcome);
      PopAllInv(Pop(s, outcome), k - 1, outcome);
    }
  }

  lemma ArmInv(s: Timers, t: nat)
    requires Inv(s) && t in s.timers && s.timers[t].wait.None?
    ensures Inv(Apply(s, AsyncWait(t, true)))
  {
    hide OnePlace, Owned, Sorted;
    var slot := Slot(s.timers[t].deadline, |s.detached|);
    InsertSorted(s.wheel, slot);
    ArmLive(s, t);
    ArmOwned(s, t);
    ArmPlaces(s, Apply(s, AsyncWait(t, true)), slot);
    hide Insert, SlotsLive;
  }

  lemma ArmLive(s: Timers, t: nat)
    requires SlotsLive(s) && t in s.timers && s.timers[t].wait.None?
    ensures SlotsLive(Apply(s, AsyncWait(t, true)))
  {
    var slot := Slot(s.timers[t].deadline, |s.detached|);
    var r := Apply(s, AsyncWait(t, true));
    forall w: nat | Holds(s.wheel, w) || w == slot.wait ensures Holds(r.wheel, w) { HoldsMore(s.wheel, slot, w); }
    InsertFrom(s.wheel, slot);
    hide Insert, Holds;
  }

  lemma ArmOwned(s: Timers, t: nat)
    requires SlotsLive(s) && t in s.timers && s.timers[t].wait.None? && Owned(s) && SlotsLive(Apply(s, AsyncWait(t, true)))
    ensures Owned(Apply(s, AsyncWait(t, true)))
  {
    InsertFrom(s.wheel, Slot(s.timers[t].deadline, |s.detached|));
    hide Insert, Holds;
  }

  lemma InsertFrom(wheel: seq<Slot>, slot: Slot)
    ensures forall i :: 0 <= i < |Insert(wheel, slot)| ==> Insert(wheel, slot)[i] == slot || Insert(wheel, slot)[i] in wheel
  {
    hide DueCount;
  }

  lemma ArmPlaces(s: Timers, r: Timers, slot: Slot)
    requires OnePlace(s) && slot.wait == |s.detached| && |r.detached| == |s.detached| + 1
    requires r.wheel == Insert(s.wheel, slot) && r.posted == s.posted && r.dropped == s.dropped
    ensures OnePlace(r)
  {
    hide Bag, Insert;
    InsertBag(s.wheel, slot);
    assert Places(r) == Places(s) + multiset{slot.wait};
    forall w: nat ensures Places(r)[w] == if w < |r.detached| then 1 else 0 {
      assert Places(s)[w] == if w < |s.detached| then 1 else 0;
    }
  }

  lemma ExpiresInv(s: Timers, t: nat, now: int, delay: int)
    requires Inv(s) && t in s.timers
    ensures Inv(Apply(s, ExpiresAfter(t, now, delay)))
  {
    hide Displace, OnePlace, Holds, Sorted;
    DisplaceInv(s, t);
    SamePlaces(Displace(s, t), Apply(s, ExpiresAfter(t, now, delay)));
  }

  lemma DestroyInv(s: Timers, t: nat)
    requires Inv(s) && t in s.timers
    ensures Inv(Apply(s, Destroy(t)))
  {
    hide OnePlace, Holds, Sorted;
    SamePlaces(s, Apply(s, Destroy(t)));
  }

  lemma CreateInv(s: Timers, t: nat)
    requires Inv(s) && t !in s.timers
    ensures Inv(Apply(s, Create(t)))
  {
    hide OnePlace, Holds, Sorted;
    SamePlaces(s, Apply(s, Create(t)));
  }

  lemma ApplyInv(s: Timers, op: Op)
    requires Inv(s) && Enabled(s, op)
    ensures Inv(Apply(s, op))
  {
    hide Displace, PopAll, OnePlace, Owned, Sorted;
    match op
    case Create(t) => CreateInv(s, t);
    case ExpiresAfter(t, now, delay) => ExpiresInv(s, t, now, delay);
    case AsyncWait(t, handler) => if s.timers[t].wait.None? && handler { ArmInv(s, t); }
    case Cancel(t) => DisplaceInv(s, t);
    case Destroy(t) => DestroyInv(s, t);
    case FireDue(now) => PopAllInv(s, DueCount(s.wheel, now), Due);
    case Shutdown => PopAllInv(s, |s.wheel|, Canceled);
  }

  ghost predicate IsRun(states: seq<Timers>, ops: seq<Op>) {
    && |states| == |ops| + 1
    && forall i :: 0 <= i < |ops| ==> IsStep(states[i], ops[i], states[i + 1])
  }

  ghost predicate IsStep(s: Timers, op: Op, r: Timers) {
    SlotsLive(s) ==> Enabled(s, op) && r == Apply(s, op)
  }

  const NO_TIMERS := Timers([], [], [], map[], [], [])

  /**
   * Over every history of every set of timers: each wait ever armed is in
   * exactly one of the wheel, the posted completions and the dropped ones, so
   * no handler is posted twice; a wait is dropped only if its timer is gone; a
   * timer whose wait the wheel has not removed still finds its slot there, so
   * cancelling never touches a removed slot; and the wheel stays in due order.
   */
  lemma {:induction false} WaitsInOnePlace(states: seq<Timers>, ops: seq<Op>, k: nat)
    requires IsRun(states, ops) && states[0] == NO_TIMERS && k < |states|
    ensures Inv(states[k])
  {
    if k > 0 {
      hide Inv, Apply, Enabled;
      WaitsInOnePlace(states, ops, k - 1);
      assert IsStep(states[k - 1], ops[k - 1], states[k]);
      assert SlotsLive(states[k - 1]) by { InvLive(states[k - 1]); }
      ApplyInv(states[k - 1], ops[k - 1]);
    } else {
      assert Places(NO_TIMERS) == multiset{};
    }
  }

  lemma InvLive(s: Timers)
    requires Inv(s)
    ensures SlotsLive(s)
  {}

  // ---------------------------------------------------------------- due order

  /** The completions of slots whose timers still exist. */
  function Live(slots: seq<Slot>, abandoned: seq<bool>, outcome: Outcome): seq<Posted>
    requires forall i :: 0 <= i < |slots| ==> slots[i].wait < |abandoned|
  {
    if slots == [] then []
    else (if abandoned[slots[0].wait] then [] else [Posted(slots[0].wait, outcome)]) + Live(slots[1..], abandoned, outcome)
  }

  lemma {:induction false} PopAllExact(s: Timers, k: nat, outcome: Outcome)
    requires InRange(s) && k <= |s.wheel|
    ensures var r := PopAll(s, k, outcome);
            && r.wheel == s.wheel[k..] && r.abandoned == s.abandoned && r.timers == s.timers
            && r.posted == s.posted + Live(s.wheel[..k], s.abandoned, outcome)
    decreases k
  {
    if k > 0 {
      var q := Pop(s, outcome);
      PopAllExact(q, k - 1, outcome);
      assert s.wheel[..k][1..] == q.wheel[..k - 1];
    }
  }

  /**
   * Firing posts exactly the due waits whose timers exist, earliest deadline
   * first and ties in arming order, and leaves exactly the rest.
   */
  lemma FiresInDueOrder(s: Timers, now: int)
    requires Inv(s)
    ensures var r, k := Apply(s, FireDue(now)), DueCount(s.wheel, now);
            && (forall i :: 0 <= i < |s.wheel| ==> (s.wheel[i].deadline <= now <==> i < k))
            && r.wheel == s.wheel[k..] && r.posted == s.posted + Live(s.wheel[..k], s.abandoned, Due)
            && (forall i, j :: 0 <= i < j < k ==> Before(s.wheel[i], s.wheel[j]))
  {
    var k := DueCount(s.wheel, now);
    PopAllExact(s, k, Due);
    forall i | k <= i < |s.wheel| ensures s.wheel[i].deadline > now {
      if i > k { assert Before(s.wheel[k], s.wheel[i]); }
    }
  }

  // ---------------------------------------------------------------- the fate of one wait, from the operations alone

  /** The moment a timer was last set to, by the operations before `k`: now plus delay. */
  function SetTo(ops: seq<Op>, t: nat, k: nat): int
    requires k <= |ops|
  {
    if k == 0 then 0
    else match ops[k - 1]
      case ExpiresAfter(u, now, delay) => if u == t then now + delay else SetTo(ops, t, k - 1)
      case Create(u) => if u == t then 0 else SetTo(ops, t, k - 1)
      case _ => SetTo(ops, t, k - 1)
  }

  datatype Fate = Waiting | Orphaned | Ended(outcome: Outcome) | Discarded

  /** What one operation does to a wait of timer `t` due at `due`. */
  function FateStep(f: Fate, op: Op, t: nat, due: int): Fate {
    match f
    case Waiting => (
      match op
      case Cancel(u) => if u == t then Ended(Canceled) else f
      case ExpiresAfter(u, _, _) => if u == t then Ended(Canceled) else f
      case Destroy(u) => if u == t then Orphaned else f
      case FireDue(now) => if due <= now then Ended(Due) else f
      case Shutdown => Ended(Canceled)
      case _ => f)
    case Orphaned => if op.Shutdown? || (op.FireDue? && due <= op.now) then Discarded else f
    case _ => f
  }

  /** The fate after the operations up to `k` of a wait armed by operation `j`. */
  function FateOf(ops: seq<Op>, j: nat, k: nat): Fate
    requires j < k <= |ops| && ops[j].AsyncWait?
  {
    if k == j + 1 then Waiting else FateStep(FateOf(ops, j, k - 1), ops[k - 1], ops[j].timer, SetTo(ops, ops[j].timer, j))
  }

  /** Operation `j` arms wait `w`; waits are numbered as they are armed. */
  ghost predicate Arms(states: seq<Timers>, ops: seq<Op>, j: nat, w: nat) {
    && j < |ops| < |states| && ops[j].AsyncWait? && ops[j].handler && ops[j].timer in states[j].timers
    && states[j].timers[ops[j].timer].wait.None? && w == |states[j].detached|
  }

  /** Where a wait of that fate is. */
  ghost predicate Located(s: Timers, w: nat, t: nat, due: int, f: Fate) {
    match f
    case Waiting =>
      Slot(due, w) in s.wheel && w < |s.abandoned| && !s.abandoned[w] && t in s.timers && s.timers[t].wait == Some(w)
    case Orphaned =>
      && Slot(due, w) in s.wheel && w < |s.abandoned| && s.abandoned[w]
      && forall u :: u in s.timers ==> s.timers[u].wait != Some(w)
    case Ended(outcome) => Posted(w, outcome) in s.posted
    case Discarded => w in s.dropped
  }

  lemma {:induction false} TimersSet(states: seq<Timers>, ops: seq<Op>, t: nat, k: nat)
    requires IsRun(states, ops) && states[0] == NO_TIMERS && k < |states| && t in states[k].timers
    ensures states[k].timers[t].deadline == SetTo(ops, t, k)
  {
    if k > 0 {
      WaitsInOnePlace(states, ops, k - 1);
      assert IsStep(states[k - 1], ops[k - 1], states[k]);
      SetStep(states[k - 1], ops[k - 1], t);
      if t in states[k - 1].timers { TimersSet(states, ops, t, k - 1); }
    }
  }

  /** Only creating and setting a timer change its deadline. */
  lemma SetStep(s: Timers, op: Op, t: nat)
    requires Inv(s) && Enabled(s, op) && t in Apply(s, op).timers
    ensures var d := Apply(s, op).timers[t].deadline;
            match op
            case Create(u) => if u == t then d == 0 else t in s.timers && d == s.timers[t].deadline
            case ExpiresAfter(u, now, delay) => t in s.timers && d == if u == t then now + delay else s.timers[t].deadline
            case _ => t in s.timers && d == s.timers[t].deadline
  {
    hide OnePlace, Owned, Sorted, Holds;
    match op
    case FireDue(now) => PopAllExact(s, DueCount(s.wheel, now), Due);
    case Shutdown => PopAllExact(s, |s.wheel|, Canceled);
    case _ =>
  }

  // ---------------------------------------------------------------- which waits are armed

  /** Whether, by the operations before `k`, timer `t` has had no wait since it was created, cancelled or set. */
  predicate Free(ops: seq<Op>, t: nat, k: nat)
    requires k <= |ops|
  {
    if k == 0 then true
    else match ops[k - 1]
      case Create(u) => u == t || Free(ops, t, k - 1)
      case Cancel(u) => u == t || Free(ops, t, k - 1)
      case ExpiresAfter(u, _, _) => u == t || Free(ops, t, k - 1)
      case AsyncWait(u, handler) => !(u == t && handler) && Free(ops, t, k - 1)
      case _ => Free(ops, t, k - 1)
  }

  /** How many waits the operations before `k` armed: those for a free timer with a handler. */
  function Armed(ops: seq<Op>, k: nat): nat
    requires k <= |ops|
  {
    if k == 0 then 0
    else Armed(ops, k - 1)
         + if ops[k - 1].AsyncWait? && ops[k - 1].handler && Free(ops, ops[k - 1].timer, k - 1) then 1 else 0
  }

  lemma FreeStep(s: Timers, op: Op, t: nat)
    requires Inv(s) && Enabled(s, op) && t in Apply(s, op).timers
    ensures var free := Apply(s, op).timers[t].wait.None?;
            match op
            case Create(u) => if u == t then free else t in s.timers && free == s.timers[t].wait.None?
            case Cancel(u) => t in s.timers && free == (u == t || s.timers[t].wait.None?)
            case ExpiresAfter(u, _, _) => t in s.timers && free == (u == t || s.timers[t].wait.None?)
            case AsyncWait(u, handler) => t in s.timers && free == (!(u == t && handler) && s.timers[t].wait.None?)
            case _ => t in s.timers && free == s.timers[t].wait.None?
  {
    hide OnePlace, Owned, Sorted, Holds;
    match op
    case FireDue(now) => PopAllExact(s, DueCount(s.wheel, now), Due);
    case Shutdown => PopAllExact(s, |s.wheel|, Canceled);
    case _ =>
  }

  lemma {:induction false} FreeExactly(states: seq<Timers>, ops: seq<Op>, t: nat, k: nat)
    requires IsRun(states, ops) && states[0] == NO_TIMERS && k < |states| && t in states[k].timers
    ensures states[k].timers[t].wait.None? <==> Free(ops, t, k)
  {
    if k > 0 {
      hide Inv, Apply, Enabled;
      WaitsInOnePlace(states, ops, k - 1);
      InvLive(states[k - 1]);
      assert IsStep(states[k - 1], ops[k - 1], states[k]);
      FreeStep(states[k - 1], ops[k - 1], t);
      if t in states[k - 1].timers { FreeExactly(states, ops, t, k - 1); }
    }
  }

  lemma ArmedStep(s: Timers, op: Op)
    requires Inv(s) && Enabled(s, op)
    ensures |Apply(s, op).detached| == |s.detached|
              + if op.AsyncWait? && op.handler && s.timers[op.timer].wait.None? then 1 else 0
  {
    hide OnePlace, Owned, Sorted, Holds;
    match op
    case FireDue(now) => PopAllKeeps(s, DueCount(s.wheel, now), Due);
    case Shutdown => PopAllKeeps(s, |s.wheel|, Canceled);
    case _ =>
  }

  /** Over every history the operations alone say which waits were armed, and so which operation arms which wait. */
  lemma {:induction false} ArmsExactly(states: seq<Timers>, ops: seq<Op>, k: nat, w: nat)
    requires IsRun(states, ops) && states[0] == NO_TIMERS && k < |states|
    ensures |states[k].detached| == Armed(ops, k)
    ensures k < |ops| ==>
              (Arms(states, ops, k, w) <==>
                 ops[k].AsyncWait? && ops[k].handler && Free(ops, ops[k].timer, k) && w == Armed(ops, k))
  {
    hide Inv, Apply, Enabled;
    if k > 0 {
      ArmsExactly(states, ops, k - 1, w);
      WaitsInOnePlace(states, ops, k - 1);
      InvLive(states[k - 1]);
      assert IsStep(states[k - 1], ops[k - 1], states[k]);
      ArmedStep(states[k - 1], ops[k - 1]);
      if ops[k - 1].AsyncWait? {
        TimerExists(states[k - 1], ops[k - 1]);
        FreeExactly(states, ops, ops[k - 1].timer, k - 1);
      }
    }
    if k < |ops| && ops[k].AsyncWait? {
      WaitsInOnePlace(states, ops, k);
      InvLive(states[k]);
      assert IsStep(states[k], ops[k], states[k + 1]);
      TimerExists(states[k], ops[k]);
      FreeExactly(states, ops, ops[k].timer, k);
    }
  }

  lemma TimerExists(s: Timers, op: Op)
    requires Enabled(s, op) && op.AsyncWait?
    ensures op.timer in s.timers
  {}

  // ---------------------------------------------------------------- when waits fire

  /** The wait in one of the popped slots is posted, or dropped when its timer is gone. */
  lemma {:induction false} PopAllTakes(s: Timers, k: nat, outcome: Outcome, i: nat)
    requires InRange(s) && i < k <= |s.wheel|
    ensures var r, w := PopAll(s, k, outcome), s.wheel[i].wait;
            if s.abandoned[w] then w in r.dropped else Posted(w, outcome) in r.posted
    decreases k
  {
    var q := Pop(s, outcome);
    if i == 0 {
      PopAllKeeps(q, k - 1, outcome);
      assert s.abandoned[s.wheel[0].wait] ==> q.dropped[|s.dropped|] == s.wheel[0].wait;
      assert !s.abandoned[s.wheel[0].wait] ==> q.posted[|s.posted|] == Posted(s.wheel[0].wait, outcome);
    } else {
      PopAllTakes(q, k - 1, outcome, i - 1);
      assert q.wheel[i - 1] == s.wheel[i];
    }
  }

  lemma {:induction false} PopAllKeeps(s: Timers, k: nat, outcome: Outcome)
    requires InRange(s) && k <= |s.wheel|
    ensures var r := PopAll(s, k, outcome);
            && s.posted <= r.posted && s.dropped <= r.dropped && r.timers == s.timers && r.abandoned == s.abandoned
            && r.wheel == s.wheel[k..] && |r.detached| == |s.detached|
    decreases k
  {
    if k > 0 { PopAllKeeps(Pop(s, outcome), k - 1, outcome); }
  }

  /** Popping the first `k` slots, when `due` is among them exactly if `taken`. */
  lemma PopFate(s: Timers, k: nat, outcome: Outcome, w: nat, t: nat, due: int, f: Fate, taken: bool)
    requires Inv(s) && k <= |s.wheel| && Located(s, w, t, due, f)
    requires forall i :: 0 <= i < |s.wheel| && s.wheel[i] == Slot(due, w) ==> (i < k <==> taken)
    ensures Located(PopAll(s, k, outcome), w, t, due,
                    if !taken then f else if f.Waiting? then Ended(outcome) else if f.Orphaned? then Discarded else f)
  {
    hide OnePlace, Owned, Sorted, PopAll;
    PopAllKeeps(s, k, outcome);
    if f.Waiting? || f.Orphaned? {
      var i :| 0 <= i < |s.wheel| && s.wheel[i] == Slot(due, w);
      if taken {
        PopAllTakes(s, k, outcome, i);
      } else {
        assert s.wheel[k..][i - k] == Slot(due, w);
      }
    }
  }

  lemma FireFate(s: Timers, now: int, w: nat, t: nat, due: int, f: Fate)
    requires Inv(s) && Located(s, w, t, due, f)
    ensures Located(Apply(s, FireDue(now)), w, t, due, FateStep(f, FireDue(now), t, due))
  {
    FiresInDueOrder(s, now);
    hide Inv, PopAll;
    PopFate(s, DueCount(s.wheel, now), Due, w, t, due, f, due <= now);
  }

  lemma InsertKeeps(wheel: seq<Slot>, slot: Slot, x: Slot)
    ensures x in Insert(wheel, slot) <==> x == slot || x in wheel
  {
    var k := DueCount(wheel, slot.deadline);
    if x in wheel {
      var i :| 0 <= i < |wheel| && wheel[i] == x;
      assert Insert(wheel, slot)[if i < k then i else i + 1] == x;
    }
    if x == slot { assert Insert(wheel, slot)[k] == x; }
  }

  /** Displacing the timer's own wait cancels it if the wheel has it; any other wait is left alone. */
  lemma DisplaceFate(s: Timers, u: nat, w: nat, t: nat, due: int, f: Fate)
    requires Inv(s) && u in s.timers && Located(s, w, t, due, f)
    ensures Located(Displace(s, u), w, t, due, if f.Waiting? && u == t then Ended(Canceled) else f)
  {
    hide OnePlace, Sorted;
    var r := Displace(s, u);
    if f.Waiting? || f.Orphaned? {
      var i :| 0 <= i < |s.wheel| && s.wheel[i] == Slot(due, w);
      assert !s.detached[s.wheel[i].wait];
      if f.Waiting? && u == t {
        assert r.posted[|s.posted|] == Posted(w, Canceled);
      } else if r.wheel != s.wheel {
        var x := SlotOf(s.wheel, s.timers[u].wait.value);
        assert s.timers[u].wait.value != w;
        assert r.wheel[if i < x then i else i - 1] == Slot(due, w);
      }
    }
  }

  lemma OtherFate(s: Timers, op: Op, w: nat, t: nat, due: int, f: Fate)
    requires Inv(s) && Enabled(s, op) && Located(s, w, t, due, f) && (op.Create? || op.AsyncWait? || op.Destroy?)
    ensures Located(Apply(s, op), w, t, due, FateStep(f, op, t, due))
  {
    hide OnePlace, Sorted, Insert;
    match op
    case AsyncWait(u, handler) =>
      if f.Waiting? || f.Orphaned? { InsertKeeps(s.wheel, Slot(s.timers[u].deadline, |s.detached|), Slot(due, w)); }
    case _ =>
  }

  lemma StepFate(s: Timers, op: Op, w: nat, t: nat, due: int, f: Fate)
    requires Inv(s) && Enabled(s, op) && Located(s, w, t, due, f)
    ensures Located(Apply(s, op), w, t, due, FateStep(f, op, t, due))
  {
    hide Inv, Displace, PopAll;
    match op
    case FireDue(now) => FireFate(s, now, w, t, due, f);
    case Shutdown =>
      AllSlots(s);
      PopFate(s, |s.wheel|, Canceled, w, t, due, f, true);
    case Cancel(u) => DisplaceFate(s, u, w, t, due, f);
    case ExpiresAfter(u, now, delay) => ExpiresFate(s, u, now, delay, w, t, due, f);
    case _ => OtherFate(s, op, w, t, due, f);
  }

  lemma AllSlots(s: Timers)
    requires Inv(s)
    ensures SlotsLive(s)
  {}

  lemma ExpiresFate(s: Timers, u: nat, now: int, delay: int, w: nat, t: nat, due: int, f: Fate)
    requires Inv(s) && u in s.timers && Located(s, w, t, due, f)
    ensures Located(Apply(s, ExpiresAfter(u, now, delay)), w, t, due, FateStep(f, ExpiresAfter(u, now, delay), t, due))
  {
    DisplaceFate(s, u, w, t, due, f);
    DisplaceInv(s, u);
    hide Displace, OnePlace, Owned, Sorted, Holds;
  }

  lemma {:induction false} FateFollows(states: seq<Timers>, ops: seq<Op>, j: nat, w: nat, k: nat)
    requires IsRun(states, ops) && states[0] == NO_TIMERS && Arms(states, ops, j, w) && j < k < |states|
    ensures Located(states[k], w, ops[j].timer, SetTo(ops, ops[j].timer, j), FateOf(ops, j, k))
    decreases k
  {
    hide Inv, Apply, Enabled, Located;
    WaitsInOnePlace(states, ops, k - 1);
    InvLive(states[k - 1]);
    assert IsStep(states[k - 1], ops[k - 1], states[k]);
    var t, due := ops[j].timer, SetTo(ops, ops[j].timer, j);
    if k == j + 1 {
      TimersSet(states, ops, t, j);
      ArmedFate(states[j], t);
    } else {
      FateFollows(states, ops, j, w, k - 1);
      StepFate(states[k - 1], ops[k - 1], w, t, due, FateOf(ops, j, k - 1));
    }
  }

  lemma ArmedFate(s: Timers, t: nat)
    requires Inv(s) && t in s.timers && s.timers[t].wait.None?
    ensures Located(Apply(s, AsyncWait(t, true)), |s.detached|, t, s.timers[t].deadline, Waiting)
  {
    InsertKeeps(s.wheel, Slot(s.timers[t].deadline, |s.detached|), Slot(s.timers[t].deadline, |s.detached|));
    hide Insert;
  }

  lemma PostedCounts(s: Timers, w: nat, outcome: Outcome)
    requires Posted(w, outcome) in s.posted
    ensures Bag(s.posted, PostedWait())[w] >= 1
  {
    hide Bag;
    var i :| 0 <= i < |s.posted| && s.posted[i] == Posted(w, outcome);
    BagRemove(s.posted, i, PostedWait());
  }

  lemma BothCount(s: Timers, w: nat)
    requires Posted(w, Due) in s.posted && Posted(w, Canceled) in s.posted
    ensures Bag(s.posted, PostedWait())[w] >= 2
  {
    hide Bag;
    var i :| 0 <= i < |s.posted| && s.posted[i] == Posted(w, Due);
    var j :| 0 <= j < |s.posted| && s.posted[j] == Posted(w, Canceled);
    PostedTwice(s, if i < j then i else j, if i < j then j else i);
  }

  lemma HeldCounts(s: Timers, w: nat)
    ensures Holds(s.wheel, w) ==> Bag(s.wheel, SlotWait())[w] >= 1
    ensures w in s.dropped ==> Bag(s.dropped, Itself())[w] >= 1
  {
    hide Bag;
    if Holds(s.wheel, w) {
      var i :| 0 <= i < |s.wheel| && s.wheel[i].wait == w;
      BagRemove(s.wheel, i, SlotWait());
    }
    if w in s.dropped {
      var i :| 0 <= i < |s.dropped| && s.dropped[i] == w;
      BagRemove(s.dropped, i, Itself());
    }
  }

  /** A wait located by one fate is nowhere else. */
  lemma OneFate(s: Timers, w: nat, t: nat, due: int, f: Fate)
    requires Inv(s) && Located(s, w, t, due, f) && w < |s.detached|
    ensures (Posted(w, Due) in s.posted <==> f == Ended(Due)) && (Posted(w, Canceled) in s.posted <==> f == Ended(Canceled))
    ensures (w in s.dropped <==> f == Discarded) && (Holds(s.wheel, w) <==> f.Waiting? || f.Orphaned?)
  {
    assert Places(s)[w] == 1;
    hide Bag, Owned, Sorted, Holds, OnePlace;
    var wheel: nat, posted: nat, dropped: nat := Bag(s.wheel, SlotWait())[w], Bag(s.posted, PostedWait())[w], Bag(s.dropped, Itself())[w];
    assert wheel + posted + dropped == 1;
    HeldCounts(s, w);
    if Posted(w, Due) in s.posted { PostedCounts(s, w, Due); }
    if Posted(w, Canceled) in s.posted { PostedCounts(s, w, Canceled); }
    if Posted(w, Due) in s.posted && Posted(w, Canceled) in s.posted { BothCount(s, w); }
    match f
    case Waiting => InSlots(s, w, t, due, f);
    case Orphaned => InSlots(s, w, t, due, f);
    case Ended(outcome) => assert outcome.Due? || outcome.Canceled?;
    case Discarded =>
  }

  lemma InSlots(s: Timers, w: nat, t: nat, due: int, f: Fate)
    requires Located(s, w, t, due, f) && (f.Waiting? || f.Orphaned?)
    ensures Holds(s.wheel, w)
  {
    var i :| 0 <= i < |s.wheel| && s.wheel[i] == Slot(due, w);
    assert s.wheel[i].wait == w;
  }

  lemma PostedTwice(s: Timers, i: nat, j: nat)
    requires i < j < |s.posted| && s.posted[i].wait == s.posted[j].wait
    ensures Bag(s.posted, PostedWait())[s.posted[i].wait] >= 2
  {
    hide Bag;
    BagRemove(s.posted, j, PostedWait());
    BagRemove(RemoveAt(s.posted, j), i, PostedWait());
  }

  /**
   * Over every history, what becomes of a wait follows from the operations
   * alone. It is due at the moment its timer was last set to before it was
   * armed, now plus delay. The first firing at or after that moment completes
   * it as due, unless its timer was cancelled, set again, destroyed or the loop
   * shut down before; cancelling, setting and shutting down complete it as
   * cancelled, destroying discards it. No other operation does anything to it.
   */
  lemma FiresOnTime(states: seq<Timers>, ops: seq<Op>, j: nat, w: nat, k: nat)
    requires IsRun(states, ops) && states[0] == NO_TIMERS && Arms(states, ops, j, w) && j < k < |states|
    ensures var s, f := states[k], FateOf(ops, j, k);
            && (Posted(w, Due) in s.posted <==> f == Ended(Due))
            && (Posted(w, Canceled) in s.posted <==> f == Ended(Canceled))
            && (w in s.dropped <==> f == Discarded)
            && (Holds(s.wheel, w) <==> f.Waiting? || f.Orphaned?)
  {
    FateFollows(states, ops, j, w, k);
    WaitsInOnePlace(states, ops, k);
    WaitsStay(states, ops, j, k);
    OneFate(states[k], w, ops[j].timer, SetTo(ops, ops[j].timer, j), FateOf(ops, j, k));
  }

  lemma {:induction false} WaitsStay(states: seq<Timers>, ops: seq<Op>, j: nat, k: nat)
    requires IsRun(states, ops) && states[0] == NO_TIMERS && j < k < |states| && Arms(states, ops, j, |states[j].detached|)
    ensures |states[j].detached| < |states[k].detached|
    decreases k
  {
    hide Inv, OnePlace, Owned, Sorted;
    WaitsInOnePlace(states, ops, k - 1);
    InvLive(states[k - 1]);
    assert IsStep(states[k - 1], ops[k - 1], states[k]);
    if k > j + 1 {
      WaitsStay(states, ops, j, k - 1);
      ArmedStep(states[k - 1], ops[k - 1]);
    }
  }

  /** In particular a wait completes as due only in a firing at or after now plus delay. */
  lemma {:induction false} NeverEarly(states: seq<Timers>, ops: seq<Op>, j: nat, w: nat, k: nat) returns (d: nat)
    requires IsRun(states, ops) && states[0] == NO_TIMERS && Arms(states, ops, j, w) && j < k < |states|
    requires Posted(w, Due) in states[k].posted
    ensures j < d < k && ops[d].FireDue? && SetTo(ops, ops[j].timer, j) <= ops[d].now
    decreases k
  {
    FiresOnTime(states, ops, j, w, k);
    if k > j + 1 && FateOf(ops, j, k - 1) == Ended(Due) {
      FiresOnTime(states, ops, j, w, k - 1);
      d := NeverEarly(states, ops, j, w, k - 1);
    } else {
      d := k - 1;
    }
  }

  // ---------------------------------------------------------------- the loop and its timers, as code

  class TimerLoop {
    var wheel: seq<Slot>
    var detached: seq<bool>
    var abandoned: seq<bool>
    var timers: map<nat, Timer>
    var posted: seq<Posted>
    var dropped: seq<nat>

    ghost function View(): Timers
      reads this
    {
      Timers(wheel, detached, abandoned, timers, posted, dropped)
    }

    constructor ()
      ensures View() == NO_TIMERS
    {
      wheel, detached, abandoned, timers, posted, dropped := [], [], [], map[], [], [];
    }

    method Create(t: nat)
      requires Inv(View()) && t !in timers
      modifies this`timers
      ensures View() == Apply(old(View()), Op.Create(t))
    {
      timers := timers[t := Timer(None, 0)];
    }

    /** The place of a new slot: behind every slot due no later. */
    method Place(deadline: int) returns (k: nat)
      ensures k == DueCount(wheel, deadline)
    {
      k := 0;
      while k < |wheel| && wheel[k].deadline <= deadline
        invariant k <= |wheel| && DueCount(wheel, deadline) == k + DueCount(wheel[k..], deadline)
      {
        assert wheel[k..][1..] == wheel[k + 1..];
        k := k + 1;
      }
    }

    method FindSlot(w: nat) returns (i: nat)
      requires Holds(wheel, w)
      ensures i == SlotOf(wheel, w)
    {
      i := 0;
      while wheel[i].wait != w
        invariant i < |wheel| && Holds(wheel[i..], w) && SlotOf(wheel, w) == i + SlotOf(wheel[i..], w)
        decreases |wheel| - i
      {
        var rest := wheel[i..];
        assert Holds(rest[1..], w) by {
          var j :| 0 <= j < |rest| && rest[j].wait == w;
          assert rest[1..][j - 1].wait == w;
        }
        assert rest[1..] == wheel[i + 1..];
        i := i + 1;
      }
    }

    /** Takes the timer's wait back, unless the loop has already removed it from the wheel. */
    method TakeWait(t: nat) returns (taken: Option<nat>)
      requires Inv(View()) && t in timers
      modifies this`timers, this`wheel
      ensures taken.Some? <==> old(timers[t].wait.Some? && !detached[timers[t].wait.value])
      ensures var r := Displace(old(View()), t);
              && taken.None? ==> View() == r
      ensures var r := Displace(old(View()), t);
              taken.Some? ==> old(timers[t].wait) == taken && View() == r.(posted := old(posted))
    {
      hide OnePlace, Owned, Sorted;
      var timer := timers[t];
      if timer.wait.None? { return None; }
      var w := timer.wait.value;
      if detached[w] {
        timers := timers[t := timer.(wait := None)];
        return None;
      }
      var i := FindSlot(w);
      wheel := RemoveAt(wheel, i);
      timers := timers[t := timer.(wait := None)];
      return Some(w);
    }

    method Cancel(t: nat)
      requires Inv(View()) && t in timers
      modifies this`timers, this`wheel, this`posted
      ensures View() == Apply(old(View()), Op.Cancel(t))
    {
      DisplacePosts(View(), t);
      hide Inv, Displace, SlotsLive;
      var taken := TakeWait(t);
      if taken.Some? { posted := posted + [Posted(taken.value, Canceled)]; }
    }

    method ExpiresAfter(t: nat, now: int, delay: int)
      requires Inv(View()) && t in timers
      modifies this`timers, this`wheel, this`posted
      ensures View() == Apply(old(View()), Op.ExpiresAfter(t, now, delay))
    {
      assert t in Displace(View(), t).timers;
      hide Inv, Displace;
      Cancel(t);
      timers := timers[t := timers[t].(deadline := now + delay)];
    }

    method AsyncWait(t: nat, handler: bool) returns (armed: bool)
      requires Inv(View()) && t in timers
      modifies this`timers, this`wheel, this`detached, this`abandoned
      ensures View() == Apply(old(View()), Op.AsyncWait(t, handler))
      ensures armed <==> old(timers[t].wait.None?) && handler
    {
      hide OnePlace, Owned, Sorted;
      if timers[t].wait.Some? || !handler { return false; }
      var w := |detached|;
      var k := Place(timers[t].deadline);
      wheel := wheel[..k] + [Slot(timers[t].deadline, w)] + wheel[k..];
      detached, abandoned := detached + [false], abandoned + [false];
      timers := timers[t := timers[t].(wait := Some(w))];
      return true;
    }

    method Destroy(t: nat)
      requires Inv(View()) && t in timers
      modifies this`timers, this`abandoned
      ensures View() == Apply(old(View()), Op.Destroy(t))
    {
      hide OnePlace, Owned, Sorted;
      if timers[t].wait.Some? { abandoned := abandoned[timers[t].wait.value := true]; }
      timers := timers - {t};
    }

    method PopHead(outcome: Outcome)
      requires InRange(View()) && wheel != []
      modifies this`wheel, this`detached, this`posted, this`dropped
      ensures View() == Pop(old(View()), outcome)
    {
      var w := wheel[0].wait;
      detached := detached[w := true];
      wheel := wheel[1..];
      if abandoned[w] { dropped := dropped + [w]; } else { posted := posted + [Posted(w, outcome)]; }
    }

    method FireDue(now: int)
      requires Inv(View())
      modifies this`wheel, this`detached, this`posted, this`dropped
      ensures View() == Apply(old(View()), Op.FireDue(now))
    {
      ghost var s := View();
      hide OnePlace, Owned, Sorted;
      while wheel != [] && wheel[0].deadline <= now
        invariant InRange(View())
        invariant PopAll(s, DueCount(s.wheel, now), Due) == PopAll(View(), DueCount(wheel, now), Due)
        decreases |wheel|
      {
        PopHead(Due);
      }
    }

    method ShutdownDrain()
      requires Inv(View())
      modifies this`wheel, this`detached, this`posted, this`dropped
      ensures View() == Apply(old(View()), Op.Shutdown)
      ensures wheel == []
    {
      ghost var s := View();
      hide OnePlace, Owned, Sorted;
      while wheel != []
        invariant InRange(View())
        invariant PopAll(s, |s.wheel|, Canceled) == PopAll(View(), |wheel|, Canceled)
        decreases |wheel|
      {
        PopHead(Canceled);
      }
    }
  }

  lemma DisplacePosts(s: Timers, t: nat)
    requires SlotsLive(s) && t in s.timers
    ensures var w := s.timers[t].wait;
            Displace(s, t).posted == s.posted + if w.Some? && !s.detached[w.value] then [Posted(w.value, Canceled)] else []
  {}
}
