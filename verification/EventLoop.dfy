/** The native event loop: a task queue, a wake pipe, posting threads and the loop's own thread. */
module EventLoop {
  /** A queued task; `Wake` is the empty one that only wakes the loop. */
  datatype Job = Wake | Call(id: nat)

  /** Where the loop's thread stands. */
  datatype Pc =
    | Top          // deciding whether to go on
    | Blocked      // in the poller
    | Reading      // emptying the wake pipe
    | Dispatch     // descriptor callbacks and timers
    | Running      // running the batch taken in this round
    | Cancelling   // shutdown: cancelling timers and descriptors
    | Emptying     // shutdown: running everything queued
    | Checking     // shutdown: graves emptied, about to look at both queues
    | Leaving      // past the last look at the queue
    | Exited

  /**
   * `pushed`, `taken`, `deferred` and `disposed` are histories. `rounds` counts
   * the times the loop took the queue; `pushedIn` and `takenIn` say after how
   * many of them a job was pushed and in which it was taken. `looked` is how
   * many jobs had been pushed when the loop last looked at its queue. `writers`
   * have pushed and not yet written their byte; `mourners` have queued a corpse
   * and not yet pushed the wake that follows.
   */
  datatype State = State(
    tasks: seq<Job>, batch: seq<Job>, pipe: nat, writers: nat, pc: Pc,
    graves: seq<nat>, mourners: nat, active: bool, stopping: bool, drain: bool, log: Log)

  datatype Log = Log(
    pushed: seq<Job>, taken: seq<Job>, rounds: nat, pushedIn: seq<nat>, takenIn: seq<nat>, looked: nat,
    deferred: seq<nat>, disposed: seq<nat>)

  const READ_CHUNK := 256

  datatype Step =
    | Push(job: Job)             // any thread, under the queue's lock
    | Write                      // the byte after a push
    | Defer(grave: nat)          // any thread, under the graves' lock
    | Mourn                      // the wake after a queued corpse
    | SetDrain(drain: bool)      // a stop is these two writes and a pushed wake
    | SetStopping
    | Begin                      // Top: another iteration, or shutdown
    | Decide                     // shutdown: whether to wait for tasks
    | Wait(woke: bool)           // the poller returns; `woke` when it reports the pipe
    | Read
    | Take                       // the queue becomes the batch
    | RunOne
    | Bury                       // the graves are emptied
    | Look                       // shutdown: both queues found empty, or not
    | Exit

  function Pushed(s: State, job: Job): State {
    s.(tasks := s.tasks + [job], writers := s.writers + 1,
       log := s.log.(pushed := s.log.pushed + [job], pushedIn := s.log.pushedIn + [s.log.rounds]))
  }

  function Taken(s: State): State {
    s.(tasks := [], batch := s.tasks, log := s.log.(rounds := s.log.rounds + 1, looked := |s.log.pushed|))
  }

  function Buried(s: State): State {
    s.(graves := [], log := s.log.(disposed := s.log.disposed + s.graves))
  }

  predicate Enabled(s: State, step: Step) {
    match step
    case Push(_) => true
    case Write => s.writers > 0
    case Defer(_) => true
    case Mourn => s.mourners > 0
    case SetDrain(_) => true
    case SetStopping => true
    case Begin => s.pc == Top
    case Decide => s.pc == Cancelling
    case Wait(woke) => s.pc == Blocked && (woke ==> s.pipe > 0)
    case Read => s.pc == Reading
    case Take => s.pc == Dispatch || (s.pc == Emptying && s.batch == [] && s.tasks != [])
    case RunOne => (s.pc == Running || s.pc == Emptying) && s.batch != []
    case Bury => s.batch == [] && (s.pc == Running || (s.pc == Emptying && s.tasks == []))
    case Look => s.pc == Checking
    case Exit => s.pc == Leaving
  }

  function Next(s: State, step: Step, capacity: nat): State
    requires Enabled(s, step)
  {
    match step
    case Push(job) => Pushed(s, job)
    // A full pipe refuses the byte, but then it is not empty.
    case Write => s.(writers := s.writers - 1, pipe := if s.pipe < capacity then s.pipe + 1 else s.pipe)
    // A corpse handed to a live loop waits for it; otherwise it is disposed of at once.
    case Defer(g) =>
      var s1 := s.(log := s.log.(deferred := s.log.deferred + [g]));
      if s.active then s1.(graves := s.graves + [g], mourners := s.mourners + 1)
      else s1.(log := s1.log.(disposed := s1.log.disposed + [g]))
    case Mourn => Pushed(s.(mourners := s.mourners - 1), Wake)
    case SetDrain(drain) => s.(drain := drain)
    case SetStopping => s.(stopping := true)
    case Begin => s.(pc := if s.stopping then Cancelling else Blocked)
    case Decide => s.(pc := if s.drain then Emptying else Leaving)
    case Wait(woke) => s.(pc := if woke then Reading else Dispatch)
    case Read =>
      if s.pipe == 0 then s.(pc := Dispatch)
      else s.(pipe := if s.pipe < READ_CHUNK then 0 else s.pipe - READ_CHUNK)
    case Take => Taken(s).(pc := if s.pc == Dispatch then Running else Emptying)
    case RunOne =>
      s.(batch := s.batch[1..],
         log := s.log.(taken := s.log.taken + [s.batch[0]], takenIn := s.log.takenIn + [s.log.rounds]))
    case Bury => Buried(s).(pc := if s.pc == Running then Top else Checking)
    case Look =>
      if s.tasks == [] && s.graves == [] then s.(pc := Leaving, log := s.log.(looked := |s.log.pushed|))
      else s.(pc := Emptying)
    case Exit => Buried(s).(pc := Exited, active := false)
  }

  ghost predicate IsRun(states: seq<State>, steps: seq<Step>, capacity: nat) {
    |states| == |steps| + 1 && forall i :: 0 <= i < |steps| ==> IsStep(states[i], steps[i], states[i + 1], capacity)
  }

  predicate IsStep(s: State, step: Step, t: State, capacity: nat) {
    Enabled(s, step) && t == Next(s, step, capacity)
  }

  /** A loop whose thread has just started; jobs may have been posted before. */
  ghost predicate Start(s: State) {
    && s.batch == [] && s.pc == Top && s.graves == [] && s.active && !s.stopping
    && (s.tasks != [] ==> s.pipe > 0 || s.writers > 0)
    && s.log == Log(s.tasks, [], 0, seq(|s.tasks|, i => 0), [], 0, [], [])
  }

  // ---------------------------------------------------------------- no lost wakeup

  /** With the loop past its last take, a nonempty queue has a byte in the pipe or a writer on the way; a corpse has a wake queued or on the way. */
  ghost predicate WakeupKept(s: State) {
    && (s.tasks != [] && (s.pc == Top || s.pc == Blocked || s.pc == Running) ==> s.pipe > 0 || s.writers > 0)
    && (s.graves != [] && (s.pc == Top || s.pc == Blocked || s.pc == Reading || s.pc == Dispatch) ==> s.tasks != [] || s.mourners > 0)
  }

  /** Jobs leave the queue in the order they entered it; each is taken once, in the round after its push. */
  ghost predicate InOrder(s: State) {
    && s.log.pushed == s.log.taken + (s.batch + s.tasks)
    && |s.log.pushedIn| == |s.log.pushed| && |s.log.takenIn| == |s.log.taken|
    && (forall i :: 0 <= i < |s.log.taken| ==> s.log.takenIn[i] == s.log.pushedIn[i] + 1)
    && (forall i :: |s.log.taken| <= i < |s.log.taken| + |s.batch| ==> s.log.pushedIn[i] + 1 == s.log.rounds)
    && (forall i :: |s.log.taken| + |s.batch| <= i < |s.log.pushed| ==> s.log.pushedIn[i] == s.log.rounds)
  }

  ghost predicate BatchPlaced(s: State) {
    && (s.batch != [] ==> s.pc == Running || s.pc == Emptying)
    && (s.active <==> s.pc != Exited)
    && (s.pc == Cancelling || s.pc == Emptying || s.pc == Checking || s.pc == Leaving || s.pc == Exited ==> s.stopping)
  }

  /** Nothing handed over for destruction is lost, and none is left behind by the exit. */
  ghost predicate GravesRight(s: State) {
    s.log.deferred == s.log.disposed + s.graves && (s.pc == Exited ==> s.graves == [])
  }

  /** What the loop never got to is what was pushed after its last look. */
  ghost predicate LookRight(s: State) {
    && s.log.looked <= |s.log.pushed| && |s.log.taken| + |s.batch| == s.log.looked
  }

  ghost predicate Inv(s: State) {
    WakeupKept(s) && InOrder(s) && BatchPlaced(s) && GravesRight(s) && LookRight(s)
  }

  lemma PushedOrder(s: State, job: Job)
    requires InOrder(s)
    ensures InOrder(Pushed(s, job))
  {
    assert s.log.taken + (s.batch + s.tasks) + [job] == s.log.taken + (s.batch + (s.tasks + [job]));
  }

  lemma TakenOrder(s: State)
    requires InOrder(s) && s.batch == []
    ensures InOrder(Taken(s))
  {
    assert [] + s.tasks == s.tasks + [];
  }

  lemma RunOneOrder(s: State, capacity: nat)
    requires InOrder(s) && Enabled(s, RunOne)
    ensures InOrder(Next(s, RunOne, capacity))
  {
    assert s.batch == [s.batch[0]] + s.batch[1..];
    assert s.log.taken + (s.batch + s.tasks) == s.log.taken + [s.batch[0]] + (s.batch[1..] + s.tasks);
  }

  lemma StepOrder(s: State, step: Step, capacity: nat)
    requires InOrder(s) && BatchPlaced(s) && Enabled(s, step)
    ensures InOrder(Next(s, step, capacity))
  {
    BatchHeld(s, step);
    hide InOrder, BatchPlaced;
    match step
    case Push(job) => PushedOrder(s, job);
    case Mourn => MournedOrder(s);
    case Take =>
      TakenOrder(s);
      SameOrder(Taken(s), Next(s, step, capacity));
    case RunOne => RunOneOrder(s, capacity);
    case _ => SameOrder(s, Next(s, step, capacity));
  }

  lemma BatchHeld(s: State, step: Step)
    requires BatchPlaced(s) && Enabled(s, step)
    ensures step.Take? ==> s.batch == []
  {}

  lemma MournedOrder(s: State)
    requires InOrder(s) && s.mourners > 0
    ensures InOrder(Pushed(s.(mourners := s.mourners - 1), Wake))
  {
    SameOrder(s, s.(mourners := s.mourners - 1));
    PushedOrder(s.(mourners := s.mourners - 1), Wake);
  }

  lemma SameOrder(s: State, t: State)
    requires InOrder(s) && t.tasks == s.tasks && t.batch == s.batch
    requires t.log.(looked := s.log.looked, deferred := s.log.deferred, disposed := s.log.disposed) == s.log
    ensures InOrder(t)
  {}

  lemma StepGraves(s: State, step: Step, capacity: nat)
    requires GravesRight(s) && BatchPlaced(s) && Enabled(s, step)
    ensures GravesRight(Next(s, step, capacity))
  {}

  lemma StepPlaced(s: State, step: Step, capacity: nat)
    requires BatchPlaced(s) && Enabled(s, step)
    ensures BatchPlaced(Next(s, step, capacity))
  {}

  lemma StepWakes(s: State, step: Step, capacity: nat)
    requires capacity > 0 && WakeupKept(s) && BatchPlaced(s) && Enabled(s, step)
    ensures WakeupKept(Next(s, step, capacity))
  {}

  lemma StepLook(s: State, step: Step, capacity: nat)
    requires LookRight(s) && InOrder(s) && BatchPlaced(s) && Enabled(s, step)
    ensures LookRight(Next(s, step, capacity))
  {}

  lemma StepInv(s: State, step: Step, capacity: nat)
    requires capacity > 0 && Inv(s) && Enabled(s, step)
    ensures Inv(Next(s, step, capacity))
  {
    hide Next, Enabled, GravesRight, InOrder, BatchPlaced, LookRight, WakeupKept;
    StepOrder(s, step, capacity);
    StepGraves(s, step, capacity);
    StepPlaced(s, step, capacity);
    StepWakes(s, step, capacity);
    StepLook(s, step, capacity);
  }

  lemma {:induction false} RunInv(states: seq<State>, steps: seq<Step>, capacity: nat, k: nat)
    requires capacity > 0 && IsRun(states, steps, capacity) && Start(states[0]) && k < |states|
    ensures Inv(states[k])
  {
    if k > 0 {
      hide Inv, Next, Enabled, Start;
      RunInv(states, steps, capacity, k - 1);
      assert IsStep(states[k - 1], steps[k - 1], states[k], capacity);
      StepInv(states[k - 1], steps[k - 1], capacity);
    } else {
      StartInv(states[0]);
    }
  }

  lemma StartInv(s: State)
    requires Start(s)
    ensures Inv(s)
  {
    assert [] + ([] + s.tasks) == s.tasks;
  }

  /**
   * Over every run: when the loop is blocked with work queued, the pipe has a
   * byte or a poster is about to write one; with a corpse queued, that holds or
   * the wake for it is about to be pushed. Jobs are
   * taken in the order of their pushes, none twice, none by its poster, and
   * each exactly one round after its push, so one posted during a drain waits
   * for a later iteration. Corpses are disposed of once, in order.
   */
  lemma NoLostWakeup(states: seq<State>, steps: seq<Step>, capacity: nat, k: nat)
    requires capacity > 0 && IsRun(states, steps, capacity) && Start(states[0]) && k < |states|
    ensures var s := states[k];
            && (s.pc == Blocked && s.tasks != [] ==> s.pipe > 0 || s.writers > 0)
            && (s.pc == Blocked && s.graves != [] ==> s.pipe > 0 || s.writers > 0 || s.mourners > 0)
            && s.log.taken <= s.log.pushed
            && |s.log.takenIn| == |s.log.taken| <= |s.log.pushedIn|
            && (forall i :: 0 <= i < |s.log.taken| ==> s.log.takenIn[i] == s.log.pushedIn[i] + 1)
            && s.log.disposed <= s.log.deferred && (s.pc == Exited ==> s.log.disposed == s.log.deferred)
  {
    RunInv(states, steps, capacity, k);
  }

  // ---------------------------------------------------------------- progress

  /** What the loop's thread does next when nothing but the pipe wakes it. */
  function Turn(s: State): Step {
    match s.pc
    case Top => Begin
    case Blocked => Wait(true)
    case Reading => Read
    case Dispatch => Take
    case Running => if s.batch == [] then Bury else RunOne
    case _ => Begin
  }

  /** Turns until everything queued has been taken, posters resting. */
  function Rank(s: State): nat {
    var again := if s.pipe > 0 then s.pipe + |s.tasks| + 6 else 0;
    match s.pc
    case Top => again + 1
    case Blocked => again
    case Reading => s.pipe + |s.tasks| + 5
    case Dispatch => again + |s.tasks| + 4
    case Running => again + |s.batch| + 2
    case _ => 0
  }

  predicate Alive(s: State) {
    !s.stopping && (s.pc == Top || s.pc == Blocked || s.pc == Reading || s.pc == Dispatch || s.pc == Running)
  }

  /** The state after `n` turns of the loop's thread alone. */
  ghost predicate TurnsTo(s: State, t: State, n: nat, capacity: nat)
    decreases n
  {
    if n == 0 then s == t
    else Enabled(s, Turn(s)) && TurnsTo(Next(s, Turn(s), capacity), t, n - 1, capacity)
  }

  lemma TurnShrinks(s: State, capacity: nat)
    requires Inv(s) && Alive(s) && s.writers == 0 && (s.tasks != [] || s.batch != [])
    ensures Enabled(s, Turn(s)) && Rank(Next(s, Turn(s), capacity)) < Rank(s)
    ensures Alive(Next(s, Turn(s), capacity)) && Next(s, Turn(s), capacity).writers == 0
    ensures Next(s, Turn(s), capacity).log.pushed == s.log.pushed
  {
    hide InOrder, GravesRight, LookRight;
  }

  /** Once posters rest, the loop takes every job already pushed, within a bound it can compute beforehand. */
  lemma {:induction false} Progress(s: State, capacity: nat) returns (t: State, n: nat)
    requires capacity > 0 && Inv(s) && Alive(s) && s.writers == 0
    ensures n <= Rank(s) && TurnsTo(s, t, n, capacity) && t.log.taken == s.log.pushed
    decreases Rank(s)
  {
    if s.tasks == [] && s.batch == [] {
      t, n := s, 0;
      assert s.log.taken + ([] + []) == s.log.taken;
    } else {
      hide Inv, Alive, Next, Enabled, Rank;
      TurnShrinks(s, capacity);
      StepInv(s, Turn(s), capacity);
      var n';
      t, n' := Progress(Next(s, Turn(s), capacity), capacity);
      n := n' + 1;
    }
  }

  // ---------------------------------------------------------------- the fate of jobs at exit

  /**
   * Once the thread has gone, the jobs it never ran are exactly those pushed
   * after its last look at the queue, although each such caller found the loop
   * still active and may be waiting for its job.
   */
  lemma StrandedAtExit(states: seq<State>, steps: seq<Step>, capacity: nat, k: nat, i: nat)
    requires capacity > 0 && IsRun(states, steps, capacity) && Start(states[0]) && k < |states|
    requires states[k].pc == Exited && i < |states[k].log.pushed|
    ensures states[k].log.looked <= |states[k].log.pushed| && (i < |states[k].log.taken| <==> i < states[k].log.looked)
    ensures states[k].log.taken == states[k].log.pushed[..states[k].log.looked]
  {
    RunInv(states, steps, capacity, k);
    var s := states[k];
    assert s.batch == [];
    assert s.log.taken == s.log.pushed[..|s.log.taken|];
  }

  /** Whether every shutdown up to step `k` waits for tasks. */
  ghost predicate Draining(states: seq<State>, steps: seq<Step>, k: nat)
    requires k <= |steps| && |states| == |steps| + 1
  {
    forall d :: 0 <= d < k && steps[d].Decide? ==> states[d].drain
  }

  /** A shutdown that waits for tasks runs every job pushed before the thread starts to leave. */
  lemma {:induction false} DrainedBeforeLeaving(states: seq<State>, steps: seq<Step>, capacity: nat, k: nat, j: nat, i: nat)
    requires capacity > 0 && IsRun(states, steps, capacity) && Start(states[0]) && j < k < |states|
    requires states[j].pc != Leaving && states[j].pc != Exited && i < |states[j].log.pushed|
    requires states[k].pc == Leaving || states[k].pc == Exited
    requires Draining(states, steps, k)
    ensures i < |states[k].log.taken| && states[k].log.taken[i] == states[j].log.pushed[i]
    decreases k
  {
    hide Inv, Next, Enabled, Start;
    RunInv(states, steps, capacity, k - 1);
    PushesStay(states, steps, capacity, j, k);
    assert IsStep(states[k - 1], steps[k - 1], states[k], capacity);
    if states[k - 1].pc == Leaving || states[k - 1].pc == Exited {
      DrainedBeforeLeaving(states, steps, capacity, k - 1, j, i);
      LogGrows(states[k - 1], steps[k - 1], capacity);
    } else {
      LeavesDrained(states[k - 1], steps[k - 1], capacity);
    }
  }

  lemma LeavesDrained(s: State, step: Step, capacity: nat)
    requires Inv(s) && Enabled(s, step) && s.pc != Leaving && s.pc != Exited && (step.Decide? ==> s.drain)
    requires var t := Next(s, step, capacity); t.pc == Leaving || t.pc == Exited
    ensures Next(s, step, capacity).log.taken == Next(s, step, capacity).log.pushed
  {
    hide GravesRight, WakeupKept;
    assert step == Look;
    assert s.log.taken + ([] + []) == s.log.taken;
  }

  /** A thread that waits for tasks starts to leave only when every corpse handed over so far has been disposed of. */
  lemma BuriedBeforeLeaving(states: seq<State>, steps: seq<Step>, capacity: nat, k: nat)
    requires capacity > 0 && IsRun(states, steps, capacity) && Start(states[0]) && k < |steps|
    requires states[k].pc != Leaving && states[k + 1].pc == Leaving && (steps[k].Decide? ==> states[k].drain)
    ensures states[k + 1].log.disposed == states[k + 1].log.deferred
  {
    RunInv(states, steps, capacity, k);
    assert IsStep(states[k], steps[k], states[k + 1], capacity);
    hide Start, InOrder, WakeupKept, LookRight, BatchPlaced;
    assert steps[k] == Look;
  }

  /** A thread past its last look takes nothing more. */
  lemma {:induction false} NothingTakenAfter(states: seq<State>, steps: seq<Step>, capacity: nat, j: nat, k: nat)
    requires capacity > 0 && IsRun(states, steps, capacity) && Start(states[0]) && j <= k < |states|
    requires states[j].pc == Leaving || states[j].pc == Exited
    ensures (states[k].pc == Leaving || states[k].pc == Exited) && states[k].log.taken == states[j].log.taken
    decreases k
  {
    hide Inv, Next, Enabled, Start, BatchPlaced;
    if j < k {
      NothingTakenAfter(states, steps, capacity, j, k - 1);
      RunInv(states, steps, capacity, k - 1);
      PlacedRight(states[k - 1]);
      assert IsStep(states[k - 1], steps[k - 1], states[k], capacity);
      StaysAway(states[k - 1], steps[k - 1], capacity);
    }
  }

  lemma PlacedRight(s: State)
    requires Inv(s)
    ensures BatchPlaced(s)
  {
    hide WakeupKept, InOrder, GravesRight, LookRight, BatchPlaced;
  }

  lemma StaysAway(s: State, step: Step, capacity: nat)
    requires BatchPlaced(s) && Enabled(s, step) && (s.pc == Leaving || s.pc == Exited)
    ensures var t := Next(s, step, capacity); (t.pc == Leaving || t.pc == Exited) && t.log.taken == s.log.taken
  {}

  /**
   * When shutdowns wait for tasks, a job is run if and only if it was pushed
   * before the thread found both queues empty for the last time. Whether the
   * loop was active, which is what a caller checks, does not decide it.
   */
  lemma RunIffPushedInTime(states: seq<State>, steps: seq<Step>, capacity: nat, k: nat, m: nat)
    requires capacity > 0 && IsRun(states, steps, capacity) && Start(states[0]) && m < k < |states|
    requires states[k].pc == Exited && Draining(states, steps, k) && steps[m].Push?
    ensures var i := |states[m].log.pushed|;
            i < |states[k].log.taken| <==> states[m].pc != Leaving && states[m].pc != Exited
    ensures var i := |states[m].log.pushed|; i < |states[k].log.taken| ==> states[k].log.taken[i] == steps[m].job
  {
    var i := |states[m].log.pushed|;
    assert IsStep(states[m], steps[m], states[m + 1], capacity);
    RunInv(states, steps, capacity, m);
    if states[m].pc == Leaving || states[m].pc == Exited {
      NothingTakenAfter(states, steps, capacity, m, k);
    } else {
      DrainedBeforeLeaving(states, steps, capacity, k, m + 1, i);
    }
  }

  lemma {:induction false} PushesStay(states: seq<State>, steps: seq<Step>, capacity: nat, j: nat, k: nat)
    requires IsRun(states, steps, capacity) && j <= k < |states|
    ensures states[j].log.pushed <= states[k].log.pushed
  {
    if j < k {
      hide Next, Enabled;
      PushesStay(states, steps, capacity, j, k - 1);
      assert IsStep(states[k - 1], steps[k - 1], states[k], capacity);
      LogGrows(states[k - 1], steps[k - 1], capacity);
    }
  }

  lemma LogGrows(s: State, step: Step, capacity: nat)
    requires Enabled(s, step)
    ensures s.log.pushed <= Next(s, step, capacity).log.pushed && s.log.taken <= Next(s, step, capacity).log.taken
  {}

  /** The check of liveness and the push that follows it, under the lock that also guards the exit. */
  predicate Accepted(s: State) { s.active }

  const NO_JOB := Log([], [], 0, [], [], 0, [], [])

  function Idle(pc: Pc, stopping: bool, drain: bool): State { State([], [], 0, 0, pc, [], 0, true, stopping, drain, NO_JOB) }

  lemma StopsAndLeaves(capacity: nat)
    ensures IsStep(Idle(Top, false, false), SetDrain(true), Idle(Top, false, true), capacity)
    ensures IsStep(Idle(Top, false, true), SetStopping, Idle(Top, true, true), capacity)
    ensures IsStep(Idle(Top, true, true), Begin, Idle(Cancelling, true, true), capacity)
    ensures IsStep(Idle(Cancelling, true, true), Decide, Idle(Emptying, true, true), capacity)
    ensures IsStep(Idle(Emptying, true, true), Bury, Idle(Checking, true, true), capacity)
    ensures IsStep(Idle(Checking, true, true), Look, Idle(Leaving, true, true), capacity)
    ensures var late := Pushed(Idle(Leaving, true, true), Call(1));
            && IsStep(Idle(Leaving, true, true), Push(Call(1)), late, capacity)
            && IsStep(late, Exit, late.(pc := Exited, active := false), capacity)
  {}

  /**
   * A caller that found the loop alive, and pushed its job under the same lock,
   * can still wait forever: between the last look at the queue and the exit.
   */
  lemma AcceptedYetStranded(capacity: nat) returns (states: seq<State>, steps: seq<Step>)
    requires capacity > 0
    ensures IsRun(states, steps, capacity) && Start(states[0]) && |steps| == 8 && Draining(states, steps, 8)
    ensures steps[6] == Push(Call(1)) && Accepted(states[6])
    ensures states[8].pc == Exited && states[8].log.taken == [] && states[8].tasks == [Call(1)]
  {
    hide IsStep;
    StopsAndLeaves(capacity);
    var late := Pushed(Idle(Leaving, true, true), Call(1));
    states := [Idle(Top, false, false), Idle(Top, false, true), Idle(Top, true, true), Idle(Cancelling, true, true),
               Idle(Emptying, true, true), Idle(Checking, true, true), Idle(Leaving, true, true),
               late, late.(pc := Exited, active := false)];
    steps := [SetDrain(true), SetStopping, Begin, Decide, Bury, Look, Push(Call(1)), Exit];
    assert Start(states[0]) by { assert seq(0, i => 0) == []; }
  }

  // ---------------------------------------------------------------- the loop's own thread, as code

  /** A post: the push and then the byte. */
  function Posted(s: State, job: Job, capacity: nat): State {
    Next(Next(s, Push(job), capacity), Write, capacity)
  }

  function PostedAll(s: State, jobs: seq<Job>, capacity: nat): (r: State)
    ensures r.batch == s.batch && r.pc == s.pc && r.log.taken == s.log.taken && r.tasks == s.tasks + jobs
    decreases |jobs|
  {
    if jobs == [] then s else PostedAll(Posted(s, jobs[0], capacity), jobs[1..], capacity)
  }

  /** What a job posts while it runs. */
  function PostsOf(job: Job, body: nat -> seq<Job>): seq<Job> {
    match job case Wake => [] case Call(id) => body(id)
  }

  /** The batch run to its end, each job posting what it posts. */
  function RanBatch(s: State, body: nat -> seq<Job>, capacity: nat): State
    requires s.pc == Running || s.pc == Emptying
    decreases |s.batch|
  {
    if s.batch == [] then s
    else RanBatch(PostedAll(Next(s, RunOne, capacity), PostsOf(s.batch[0], body), capacity), body, capacity)
  }

  /** Snapshot after snapshot while the queue is not empty, at most `n` of them; whether it ended empty. */
  function Drained(s: State, body: nat -> seq<Job>, n: nat, capacity: nat): (bool, State)
    requires s.pc == Emptying && s.batch == []
    decreases n
  {
    if s.tasks == [] then (true, s)
    else if n == 0 then (false, s)
    else
      SnapshotExact(s, body, capacity);
      Drained(RanBatch(Next(s, Take, capacity), body, capacity), body, n - 1, capacity)
  }

  /** The pipe read until it is empty. */
  function ReadAll(s: State, capacity: nat): State
    requires s.pc == Reading
    decreases s.pipe
  {
    if s.pipe == 0 then Next(s, Read, capacity) else ReadAll(Next(s, Read, capacity), capacity)
  }

  /** What a batch posts, in order. */
  function Posts(batch: seq<Job>, body: nat -> seq<Job>): seq<Job> {
    if batch == [] then [] else PostsOf(batch[0], body) + Posts(batch[1..], body)
  }

  /** One job of a batch. */
  lemma JobRuns(s: State, body: nat -> seq<Job>, capacity: nat)
    requires s.batch != [] && (s.pc == Running || s.pc == Emptying)
    ensures var t := PostedAll(Next(s, RunOne, capacity), PostsOf(s.batch[0], body), capacity);
            && t.pc == s.pc && t.batch == s.batch[1..] && t.log.taken == s.log.taken + [s.batch[0]]
            && t.tasks == s.tasks + PostsOf(s.batch[0], body) && RanBatch(s, body, capacity) == RanBatch(t, body, capacity)
  {
    hide PostedAll;
  }

  lemma Regroup(a: seq<Job>, b: seq<Job>, c: seq<Job>)
    ensures a + (b + c) == (a + b) + c
  {}

  /** Running a batch takes exactly its jobs, in order, and leaves what they post queued behind what was there. */
  lemma {:induction false} RanBatchExact(s: State, body: nat -> seq<Job>, capacity: nat)
    requires s.pc == Running || s.pc == Emptying
    ensures var r := RanBatch(s, body, capacity);
            && r.pc == s.pc && r.batch == [] && r.log.taken == s.log.taken + s.batch && r.tasks == s.tasks + Posts(s.batch, body)
    decreases |s.batch|
  {
    if s.batch != [] {
      JobRuns(s, body, capacity);
      hide PostedAll, Next, Enabled, RanBatch;
      var t := PostedAll(Next(s, RunOne, capacity), PostsOf(s.batch[0], body), capacity);
      RanBatchExact(t, body, capacity);
      Regroup(s.log.taken, [s.batch[0]], s.batch[1..]);
      Regroup(s.tasks, PostsOf(s.batch[0], body), Posts(s.batch[1..], body));
      assert s.batch == [s.batch[0]] + s.batch[1..];
    }
  }

  /** One drain runs exactly the jobs queued when it starts, in order; what they post stays queued. */
  lemma SnapshotExact(s: State, body: nat -> seq<Job>, capacity: nat)
    requires s.batch == [] && (s.pc == Dispatch || (s.pc == Emptying && s.tasks != []))
    ensures var r := RanBatch(Next(s, Take, capacity), body, capacity);
            && r.batch == [] && r.log.taken == s.log.taken + s.tasks && r.tasks == Posts(s.tasks, body)
            && r.pc == if s.pc == Dispatch then Running else Emptying
  {
    RanBatchExact(Next(s, Take, capacity), body, capacity);
    assert [] + Posts(s.tasks, body) == Posts(s.tasks, body);
  }

  class NativeLoop {
    const capacity: nat
    var tasks: seq<Job>
    var batch: seq<Job>
    var pipe: nat
    var writers: nat
    var pc: Pc
    var graves: seq<nat>
    var mourners: nat
    var active: bool
    var stopping: bool
    var drain: bool
    var log: Log

    function View(): State
      reads this
    {
      State(tasks, batch, pipe, writers, pc, graves, mourners, active, stopping, drain, log)
    }

    /** A loop whose thread has entered. */
    constructor (capacity: nat)
      ensures this.capacity == capacity && View() == Idle(Top, false, false)
    {
      this.capacity := capacity;
      tasks, batch, pipe, writers, pc := [], [], 0, 0, Top;
      graves, mourners, active, stopping, drain, log := [], 0, true, false, false, NO_JOB;
    }

    method Post(job: Job)
      modifies this`tasks, this`pipe, this`log
      ensures View() == Posted(old(View()), job, capacity)
    {
      tasks := tasks + [job];
      log := log.(pushed := log.pushed + [job], pushedIn := log.pushedIn + [log.rounds]);
      if pipe < capacity { pipe := pipe + 1; }
    }

    method PostAll(jobs: seq<Job>)
      modifies this`tasks, this`pipe, this`log
      ensures View() == PostedAll(old(View()), jobs, capacity)
    {
      hide Posted;
      var i := 0;
      while i < |jobs|
        invariant i <= |jobs| && PostedAll(old(View()), jobs, capacity) == PostedAll(View(), jobs[i..], capacity)
      {
        assert jobs[i..][1..] == jobs[i + 1..];
        Post(jobs[i]);
        i := i + 1;
      }
    }

    method DrainWakePipe()
      requires pc == Reading
      modifies this`pipe, this`pc
      ensures View() == ReadAll(old(View()), capacity)
      ensures View() == old(View()).(pipe := 0, pc := Dispatch)
    {
      while pipe > 0
        invariant pc == Reading && View() == old(View()).(pipe := pipe)
        invariant ReadAll(old(View()), capacity) == ReadAll(View(), capacity)
      {
        pipe := if pipe < READ_CHUNK then 0 else pipe - READ_CHUNK;
      }
      pc := Dispatch;
    }

    method RunJob(body: nat -> seq<Job>)
      requires batch != [] && (pc == Running || pc == Emptying)
      modifies this`tasks, this`batch, this`pipe, this`log
      ensures View() == PostedAll(Next(old(View()), RunOne, capacity), PostsOf(old(batch)[0], body), capacity)
    {
      hide PostedAll;
      var job := batch[0];
      batch := batch[1..];
      log := log.(taken := log.taken + [job], takenIn := log.takenIn + [log.rounds]);
      PostAll(PostsOf(job, body));
    }

    /** Everything queued becomes the batch, and the batch is run; what it posts stays queued. */
    method RunSnapshot(body: nat -> seq<Job>)
      requires batch == [] && (pc == Dispatch || (pc == Emptying && tasks != []))
      modifies this`tasks, this`batch, this`pipe, this`pc, this`log
      ensures View() == RanBatch(Next(old(View()), Take, capacity), body, capacity)
    {
      batch, tasks := tasks, [];
      log := log.(rounds := log.rounds + 1, looked := |log.pushed|);
      if pc == Dispatch { pc := Running; }
      ghost var taken := View();
      assert taken == Next(old(View()), Take, capacity);
      hide PostedAll, Next, Enabled;
      while batch != []
        invariant (pc == Running || pc == Emptying) && RanBatch(taken, body, capacity) == RanBatch(View(), body, capacity)
        decreases |batch|
      {
        JobRuns(View(), body, capacity);
        RunJob(body);
      }
    }

    /**
     * An iteration drains one snapshot. The shutdown drain repeats until the
     * queue is empty, which only the tasks can bring about; it is watched for
     * `rounds` snapshots.
     */
    method DrainTasks(everything: bool, body: nat -> seq<Job>, rounds: nat) returns (done: bool)
      requires batch == [] && pc == if everything then Emptying else Dispatch
      modifies this`tasks, this`batch, this`pipe, this`pc, this`log
      ensures !everything ==> done && View() == RanBatch(Next(old(View()), Take, capacity), body, capacity)
      ensures everything ==> (done, View()) == Drained(old(View()), body, rounds, capacity) && (done <==> tasks == [])
    {
      hide RanBatch;
      if !everything {
        RunSnapshot(body);
        return true;
      }
      var n := rounds;
      while tasks != [] && n > 0
        invariant batch == [] && pc == Emptying
        invariant Drained(old(View()), body, rounds, capacity) == Drained(View(), body, n, capacity)
        decreases n
      {
        SnapshotExact(View(), body, capacity);
        RunSnapshot(body);
        n := n - 1;
      }
      done := tasks == [];
    }
  }
}
