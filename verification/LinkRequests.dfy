/** The request table under concurrent callers: nothing is lost, nothing completes twice, nothing overflows. */
module LinkRequests {
  import opened ByteCodec
  import opened Seqs
  import opened LinkCodec
  import opened Trust
  import opened Link

  /**
   * A thread inside `request`, which is not atomic: it has taken an id, then
   * claimed capacity, and then either undoes the claim or posts its task.
   */
  datatype Phase = Claimed | Rejected | Accepted
  datatype Caller = Caller(id: U64, phase: Phase, payload: Bytes)
  datatype Task = Task(id: U64, payload: Bytes)

  datatype System = System(link: Link, callers: seq<Caller>, tasks: seq<Task>, nextId: U64)

  datatype Step =
    | Call(payload: Bytes)
    | Reserve(i: nat)
    | Reject(i: nat)
    | Post(i: nat)
    | RunTask(i: nat)
    | Receive(f: Frame, trust: Snapshot, controllerKey: Bytes, c: Credentials)
    | Resolve(id: U64, error: Errc)                 // a timeout or a cancellation, of any id
    | Lose(error: Errc)                             // read, write or heartbeat failure
    | Reattach(nonce: Bytes, epoch: U64)
    | TrustChange(trust: Snapshot)
    | Written
    | RequestStop
    | RunStop

  predicate Enabled(s: System, step: Step) {
    match step
    case Call(_) => s.nextId < 0xFFFF_FFFF_FFFF_FFFF
    case Reserve(i) => i < |s.callers| && s.callers[i].phase.Claimed?
    case Reject(i) => i < |s.callers| && s.callers[i].phase.Rejected?
    case Post(i) => i < |s.callers| && s.callers[i].phase.Accepted?
    case RunTask(i) => i < |s.tasks|
    case Receive(_, _, _, _) => s.link.connected
    case Resolve(_, _) => true
    case Lose(_) => true
    case Reattach(nonce, _) => !s.link.connected && |nonce| == NONCE_BYTES
    case TrustChange(_) => true
    case Written => s.link.writes != []
    case RequestStop => true
    case RunStop => s.link.stopped
  }

  function Next(s: System, step: Step, o: Options): System
    requires Enabled(s, step)
  {
    var l := s.link;
    match step
    case Call(payload) => s.(callers := s.callers + [Caller(s.nextId, Claimed, payload)], nextId := s.nextId + 1)
    case Reserve(i) =>
      var phase := if l.table.outstanding >= o.maxPending then Rejected else Accepted;
      s.(callers := s.callers[i := s.callers[i].(phase := phase)],
         link := l.(table := l.table.(outstanding := l.table.outstanding + 1)))
    case Reject(i) =>
      s.(callers := RemoveAt(s.callers, i), link := l.(table := Refuse(l.table, s.callers[i].id, NoBufferSpace)))
    case Post(i) =>
      s.(callers := RemoveAt(s.callers, i), tasks := s.tasks + [Task(s.callers[i].id, s.callers[i].payload)])
    case RunTask(i) => s.(tasks := RemoveAt(s.tasks, i), link := RunRequest(l, o, s.tasks[i].id, s.tasks[i].payload))
    case Receive(f, trust, controllerKey, c) => s.(link := HandleFrame(l, o, f, trust, controllerKey, c))
    case Resolve(id, error) => s.(link := l.(table := Complete(l.table, id, Failed(error))))
    case Lose(error) => s.(link := Disconnect(l, o, error))
    case Reattach(nonce, epoch) => s.(link := Attach(l, o, nonce, epoch))
    case TrustChange(trust) => s.(link := Recheck(l, o, trust))
    case Written => s.(link := l.(writes := l.writes[1..]))
    case RequestStop => s.(link := l.(stopped := true))
    case RunStop => s.(link := StopOnExecutor(l, o))
  }

  const START := System(FRESH, [], [], 1)

  ghost predicate Run(states: seq<System>, steps: seq<Step>, o: Options) {
    && |states| == |steps| + 1 && states[0] == START
    && forall i :: 0 <= i < |steps| ==> Enabled(states[i], steps[i]) && states[i + 1] == Next(states[i], steps[i], o)
  }

  // ---------------------------------------------------------------- where every request is

  function CallerId(c: Caller): U64 { c.id }
  function TaskId(t: Task): U64 { t.id }
  function CompletionId(c: Completion): U64 { c.id }

  /** 1 for a caller that holds a claim on capacity. */
  function Claims(c: Caller): nat { if c.phase.Claimed? then 0 else 1 }

  /** 1 for a caller whose claim was granted. */
  function Granted(c: Caller): nat { if c.phase.Accepted? then 1 else 0 }

  function TableBag(t: Table): multiset<U64> { multiset(t.pending) + Bag(t.posted, CompletionId) }

  /** Every id in the system, with multiplicity: held by a caller, a task or the table, or completed. */
  function Located(s: System): multiset<U64> {
    Bag(s.callers, CallerId) + Bag(s.tasks, TaskId) + TableBag(s.link.table)
  }

  /** The ids handed out so far, once each. */
  function Issued(n: U64): multiset<U64> {
    if n <= 1 then multiset{} else Issued(n - 1) + multiset{n - 1}
  }

  lemma {:induction false} IssuedOnce(n: U64, id: U64)
    ensures Issued(n)[id] == if 1 <= id < n then 1 else 0
  {
    if n > 1 { IssuedOnce(n - 1, id); }
  }

  ghost predicate Inv(s: System, o: Options) {
    && LinkInv(s.link, o)
    && s.link.table.outstanding == Total(s.callers, Claims) + |s.tasks| + |s.link.table.pending|
    && Total(s.callers, Granted) + |s.tasks| + |s.link.table.pending| <= o.maxPending
    && Located(s) == Issued(s.nextId)
    && s.nextId >= 1
  }

  // ---------------------------------------------------------------- what link events do to the table

  /** No id appears or vanishes, no claim is created or lost, the table does not grow. */
  ghost predicate Settles(t: Table, u: Table) {
    && TableBag(u) == TableBag(t)
    && u.outstanding - |u.pending| == t.outstanding - |t.pending|
    && |u.pending| <= |t.pending|
  }

  lemma CompleteSettles(t: Table, id: U64, reply: Reply)
    ensures Settles(t, Complete(t, id, reply))
  {
    if id in t.pending {
      RemoveMembers(t.pending, id);
      assert |multiset(RemoveId(t.pending, id))| == |multiset(t.pending)| - 1;
      BagAdd(t.posted, Completion(id, reply), CompletionId);
    }
  }

  lemma {:induction false} CompletionsBag(ids: seq<U64>, reply: Reply)
    ensures Bag(Completions(ids, reply), CompletionId) == multiset(ids)
  {
    if ids != [] {
      var rest := ids[1..];
      assert ids == [ids[0]] + rest;
      assert Completions(ids, reply)[1..] == Completions(rest, reply);
      CompletionsBag(rest, reply);
    }
  }

  lemma CompleteAllSettles(t: Table, reply: Reply)
    ensures Settles(t, CompleteAll(t, reply))
  {
    CompletionsBag(t.pending, reply);
    BagConcat(t.posted, Completions(t.pending, reply), CompletionId);
  }

  lemma DisconnectSettles(l: Link, o: Options, e: Errc)
    ensures Settles(l.table, Disconnect(l, o, e).table)
  {
    CompleteAllSettles(l.table, Failed(e));
  }

  lemma HelloSettles(l: Link, o: Options, payload: Bytes, trust: Snapshot, c: Credentials, key: Bytes)
    ensures Settles(l.table, HandleHello(l, o, payload, trust, c.sign).0.table)
    ensures Settles(l.table, HandleHelloAuth(l, o, payload, key, c.verify).table)
  {
    hide AuthMessage, EncodeIdentity, DecodeIdentity, Acceptable, Remember, Settles;
    SettlesSame(l.table);
    forall m: Link, e: Errc | m.table == l.table ensures Settles(l.table, Disconnect(m, o, e).table) {
      DisconnectSettles(m, o, e);
    }
  }

  lemma SettlesSame(t: Table)
    ensures Settles(t, t)
  {}

  lemma PlainSettles(l: Link, o: Options, f: Frame)
    ensures Settles(l.table, HandlePlain(l, o, f).table)
  {
    hide Disconnect, Complete, Settles;
    SettlesSame(l.table);
    CompleteSettles(l.table, f.id, Answer(f.payload));
    DisconnectSettles(l, o, NoBufferSpace);
  }

  lemma FrameSettles(l: Link, o: Options, f: Frame, trust: Snapshot, controllerKey: Bytes, c: Credentials)
    ensures Settles(l.table, HandleFrame(l, o, f, trust, controllerKey, c).table)
  {
    hide HandleHello, HandleHelloAuth, HandlePlain, Disconnect, DecodeUpdate, Settles;
    SettlesSame(l.table);
    PlainSettles(l, o, f);
    forall e: Errc ensures Settles(l.table, Disconnect(l, o, e).table) { DisconnectSettles(l, o, e); }
    HelloSettles(l, o, f.payload, trust, c, NeighborKey(trust.neighbors, l.hs.peerId));
  }

  lemma AttachSettles(l: Link, o: Options, nonce: Bytes, epoch: U64)
    ensures Settles(l.table, Attach(l, o, nonce, epoch).table)
  {
    hide HelloFrame, Settles;
    SettlesSame(l.table);
    forall m: Link, e: Errc | m.table == l.table ensures Settles(l.table, Disconnect(m, o, e).table) {
      DisconnectSettles(m, o, e);
    }
  }

  lemma StopSettles(l: Link, o: Options)
    ensures Settles(l.table, StopOnExecutor(l, o).table)
  {
    var m := Disconnect(l.(reconnecting := false), o, OperationCanceled);
    DisconnectSettles(l.(reconnecting := false), o, OperationCanceled);
    CompleteAllSettles(m.table, Failed(OperationCanceled));
  }

  /** One id enters the table and one claim is used up. */
  ghost predicate Absorbs(t: Table, u: Table, id: U64) {
    && TableBag(u) == TableBag(t) + multiset{id}
    && u.outstanding - |u.pending| == t.outstanding - |t.pending| - 1
    && |u.pending| <= |t.pending| + 1
  }

  lemma RefuseAbsorbs(t: Table, id: U64, e: Errc)
    ensures Absorbs(t, Refuse(t, id, e), id)
  {
    BagAdd(t.posted, Completion(id, Failed(e)), CompletionId);
  }

  lemma InsertAbsorbs(t: Table, id: U64)
    requires Ascending(t.pending) && id !in t.pending
    ensures Absorbs(t, t.(pending := InsertId(t.pending, id)), id)
  {
    InsertMembers(t.pending, id);
    assert |multiset(InsertId(t.pending, id))| == |multiset(t.pending)| + 1;
  }

  /** A task either registers its request or refuses it; both use up the task's claim. */
  lemma RunRequestAbsorbs(l: Link, o: Options, id: U64, payload: Bytes)
    requires LinkInv(l, o) && id !in l.table.pending
    ensures Absorbs(l.table, RunRequest(l, o, id, payload).table, id)
  {
    hide Absorbs, Refuse, InsertId;
    forall e: Errc ensures Absorbs(l.table, Refuse(l.table, id, e), id) { RefuseAbsorbs(l.table, id, e); }
    InsertAbsorbs(l.table, id);
  }

  // ---------------------------------------------------------------- every step keeps the invariant

  lemma LinkStepInv(s: System, l: Link, o: Options)
    requires Inv(s, o) && LinkInv(l, o) && Settles(s.link.table, l.table)
    ensures Inv(s.(link := l), o)
  {}

  lemma CallInv(s: System, payload: Bytes, o: Options)
    requires Inv(s, o) && Enabled(s, Call(payload))
    ensures Inv(Next(s, Call(payload), o), o)
  {
    hide LinkInv, TableBag, Bag, Total;
    var c := Caller(s.nextId, Claimed, payload);
    BagAdd(s.callers, c, CallerId);
    TotalAdd(s.callers, c, Claims);
    TotalAdd(s.callers, c, Granted);
  }

  lemma RemoveCaller(callers: seq<Caller>, i: nat)
    requires i < |callers|
    ensures Bag(callers, CallerId) == Bag(RemoveAt(callers, i), CallerId) + multiset{callers[i].id}
    ensures Total(callers, Claims) == Total(RemoveAt(callers, i), Claims) + Claims(callers[i])
    ensures Total(callers, Granted) == Total(RemoveAt(callers, i), Granted) + Granted(callers[i])
  {
    BagRemove(callers, i, CallerId);
    TotalRemove(callers, i, Claims);
    TotalRemove(callers, i, Granted);
  }

  /** An id changes place. */
  lemma Moves(a: multiset<U64>, b: multiset<U64>, c: multiset<U64>, id: U64)
    ensures (a + multiset{id}) + b + c == a + (b + multiset{id}) + c == a + b + (c + multiset{id})
  {}

  lemma RejectInv(s: System, i: nat, o: Options)
    requires Inv(s, o) && Enabled(s, Reject(i))
    ensures Inv(Next(s, Reject(i), o), o)
  {
    hide TableBag, RemoveAt, Bag, Total;
    var id := s.callers[i].id;
    RemoveCaller(s.callers, i);
    RefuseAbsorbs(s.link.table, id, NoBufferSpace);
    Moves(Bag(RemoveAt(s.callers, i), CallerId), Bag(s.tasks, TaskId), TableBag(s.link.table), id);
  }

  lemma PostInv(s: System, i: nat, o: Options)
    requires Inv(s, o) && Enabled(s, Post(i))
    ensures Inv(Next(s, Post(i), o), o)
  {
    hide LinkInv, TableBag, RemoveAt, Bag, Total;
    RemoveCaller(s.callers, i);
    Moves(Bag(RemoveAt(s.callers, i), CallerId), Bag(s.tasks, TaskId), TableBag(s.link.table), s.callers[i].id);
    BagAdd(s.tasks, Task(s.callers[i].id, s.callers[i].payload), TaskId);
  }

  lemma GrantedWithinClaims(callers: seq<Caller>)
    ensures Total(callers, Granted) <= Total(callers, Claims)
  {}

  /** Replacing a caller by a later phase of itself. */
  lemma ReplaceCaller(callers: seq<Caller>, i: nat, c: Caller)
    requires i < |callers| && callers[i].id == c.id
    ensures Bag(callers[i := c], CallerId) == Bag(callers, CallerId)
    ensures Total(callers[i := c], Claims) == Total(callers, Claims) - Claims(callers[i]) + Claims(c)
    ensures Total(callers[i := c], Granted) == Total(callers, Granted) - Granted(callers[i]) + Granted(c)
  {
    var after := callers[i := c];
    assert RemoveAt(after, i) == RemoveAt(callers, i);
    BagRemove(callers, i, CallerId);
    BagRemove(after, i, CallerId);
    TotalRemove(callers, i, Claims);
    TotalRemove(after, i, Claims);
    TotalRemove(callers, i, Granted);
    TotalRemove(after, i, Granted);
  }

  lemma ReserveInv(s: System, i: nat, o: Options)
    requires Inv(s, o) && Enabled(s, Reserve(i))
    ensures Inv(Next(s, Reserve(i), o), o)
  {
    var phase := if s.link.table.outstanding >= o.maxPending then Rejected else Accepted;
    ReplaceCaller(s.callers, i, s.callers[i].(phase := phase));
    GrantedWithinClaims(s.callers);
  }

  lemma NotPendingYet(s: System, i: nat, o: Options)
    requires Inv(s, o) && i < |s.tasks|
    ensures s.tasks[i].id !in s.link.table.pending
  {
    var id := s.tasks[i].id;
    BagRemove(s.tasks, i, TaskId);
    IssuedOnce(s.nextId, id);
    assert Located(s)[id] >= 1 + multiset(s.link.table.pending)[id];
  }

  lemma RunTaskInv(s: System, i: nat, o: Options)
    requires Inv(s, o) && i < |s.tasks|
    ensures Inv(Next(s, RunTask(i), o), o)
  {
    hide LinkInv, TableBag, RunRequest, RemoveAt, Bag, Total;
    var t := s.tasks[i];
    Moves(Bag(s.callers, CallerId), Bag(RemoveAt(s.tasks, i), TaskId), TableBag(s.link.table), t.id);
    NotPendingYet(s, i, o);
    BagRemove(s.tasks, i, TaskId);
    RunRequestAbsorbs(s.link, o, t.id, t.payload);
    RequestInv(s.link, o, t.id, t.payload);
  }

  lemma StepInv(s: System, step: Step, o: Options)
    requires Inv(s, o) && Enabled(s, step)
    ensures Inv(Next(s, step, o), o)
  {
    hide HandleFrame, Disconnect, Attach, Recheck, StopOnExecutor, RunRequest, Complete, Inv, LinkInv, Settles;
    match step
    case Call(payload) => CallInv(s, payload, o);
    case Reserve(i) => ReserveInv(s, i, o);
    case Reject(i) => RejectInv(s, i, o);
    case Post(i) => PostInv(s, i, o);
    case RunTask(i) => RunTaskInv(s, i, o);
    case _ =>
      EventStepInv(s, step, o);
      LinkStepInv(s, Next(s, step, o).link, o);
  }

  lemma EventStepInv(s: System, step: Step, o: Options)
    requires Inv(s, o) && Enabled(s, step)
    requires !(step.Call? || step.Reserve? || step.Reject? || step.Post? || step.RunTask?)
    ensures LinkInv(Next(s, step, o).link, o) && Settles(s.link.table, Next(s, step, o).link.table)
    ensures Next(s, step, o) == s.(link := Next(s, step, o).link)
  {
    hide HandleFrame, Disconnect, Attach, StopOnExecutor, Complete, Settles;
    var l := s.link;
    SettlesSame(l.table);
    match step
    case Receive(f, trust, controllerKey, c) =>
      FrameInv(l, o, f, trust, controllerKey, c);
      FrameSettles(l, o, f, trust, controllerKey, c);
    case Resolve(id, error) =>
      CompleteInv(l.table, id, Failed(error));
      CompleteSettles(l.table, id, Failed(error));
    case Lose(error) =>
      DisconnectInv(l, o, error);
      DisconnectSettles(l, o, error);
    case Reattach(nonce, epoch) =>
      AttachInv(l, o, nonce, epoch);
      AttachSettles(l, o, nonce, epoch);
    case TrustChange(trust) =>
      RecheckInv(l, o, trust);
      DisconnectSettles(l.(peerRevoked := true), o, PermissionDenied);
    case RunStop =>
      StopInv(l, o);
      StopSettles(l, o);
    case _ =>
  }

  lemma {:induction false} RunInv(states: seq<System>, steps: seq<Step>, o: Options, k: nat)
    requires Run(states, steps, o) && k < |states|
    ensures Inv(states[k], o)
  {
    if k == 0 {
      assert Located(START) == multiset{};
    } else {
      RunInv(states, steps, o, k - 1);
      StepInv(states[k - 1], steps[k - 1], o);
    }
  }

  // ---------------------------------------------------------------- main results

  /**
   * In every reachable state each id ever issued is in exactly one place: with
   * its caller, in a posted task, in the table, or completed. So no request
   * completes twice and none is forgotten.
   */
  lemma ExactlyOnePlace(states: seq<System>, steps: seq<Step>, o: Options, k: nat, id: U64)
    requires Run(states, steps, o) && k < |states|
    ensures var s := states[k];
            Bag(s.callers, CallerId)[id] + Bag(s.tasks, TaskId)[id] + multiset(s.link.table.pending)[id]
              + Bag(s.link.table.posted, CompletionId)[id]
            == if 1 <= id < s.nextId then 1 else 0
  {
    RunInv(states, steps, o, k);
    IssuedOnce(states[k].nextId, id);
    assert Located(states[k])[id] == Issued(states[k].nextId)[id];
  }

  /**
   * The capacity counter is exactly the claims in the system, granted claims
   * never exceed the limit, and requests are pending only on a ready, connected link.
   */
  lemma CapacityAccounted(states: seq<System>, steps: seq<Step>, o: Options, k: nat)
    requires Run(states, steps, o) && k < |states|
    ensures var s := states[k];
            && s.link.table.outstanding == Total(s.callers, Claims) + |s.tasks| + |s.link.table.pending|
            && Total(s.callers, Granted) + |s.tasks| + |s.link.table.pending| <= o.maxPending
            && (s.link.table.pending != [] ==> s.link.ready) && (s.link.ready ==> s.link.connected)
  {
    RunInv(states, steps, o, k);
  }

  /** When a posted request runs, the table has room: the second capacity check never fires. */
  lemma RecheckNeverFires(states: seq<System>, steps: seq<Step>, o: Options, k: nat, i: nat)
    requires Run(states, steps, o) && k < |states| && i < |states[k].tasks|
    ensures |states[k].link.table.pending| < o.maxPending
  {
    RunInv(states, steps, o, k);
  }

  /** Over every run, authenticated or not, a link meant for one peer is ready only with that peer. */
  lemma ExpectedPeer(states: seq<System>, steps: seq<Step>, o: Options, k: nat)
    requires Run(states, steps, o) && k < |states|
    requires states[k].link.ready && o.expectedPeer != []
    ensures states[k].link.peer == o.expectedPeer
  {
    RunInv(states, steps, o, k);
  }

  // ---------------------------------------------------------------- what each request is answered with

  /** The error a frame takes an established link down with, if it does. */
  function Fatal(l: Link, o: Options, f: Frame): Option<Errc> {
    if f.kind.Hello? || f.kind.HelloAuth? || (f.kind.EpochConfig? && !(o.authenticated && DecodeUpdate(f.payload).Some?))
    then Some(ProtocolError)
    else if f.kind.Ping? && (|l.writes| >= o.maxQueued || o.maxFrameBytes < 10) then Some(NoBufferSpace)
    else None
  }

  /** Why a posted request is refused by its task. */
  function RefusedBy(l: Link, o: Options, payload: Bytes): Option<Errc> {
    if l.stopped then Some(OperationCanceled)
    else if !l.ready then Some(NotConnected)
    else if |l.table.pending| >= o.maxPending || |l.writes| >= o.maxQueued then Some(NoBufferSpace)
    else if |payload| > o.maxFrameBytes - 10 then Some(MessageSize)
    else None
  }

  /** In state `s` the step gives request `id` this reply. */
  predicate Causes(s: System, step: Step, o: Options, id: U64, reply: Reply) {
    var l := s.link;
    match step
    case Reject(i) => i < |s.callers| && s.callers[i].id == id && reply == Failed(NoBufferSpace)
    case RunTask(i) =>
      i < |s.tasks| && s.tasks[i].id == id && reply.Failed? && RefusedBy(l, o, s.tasks[i].payload) == Some(reply.error)
    case Receive(f, _, _, _) =>
      && id in l.table.pending
      && (|| (f.kind.Response? && f.id == id && reply == Answer(f.payload))
          || (reply.Failed? && Fatal(l, o, f) == Some(reply.error)))
    case Resolve(i, error) => i == id && id in l.table.pending && reply == Failed(error)
    case Lose(error) => id in l.table.pending && reply == Failed(error)
    case TrustChange(trust) =>
      var target := if l.peer != [] then l.peer else o.expectedPeer;
      && id in l.table.pending && reply == Failed(PermissionDenied)
      && !l.stopped && target != [] && target != o.nodeId && !Trusts(trust.neighbors, target)
    case RunStop => id in l.table.pending && reply == Failed(OperationCanceled)
    case _ => false
  }

  lemma AllReplied(t: Table, reply: Reply, id: U64, r: Reply)
    ensures Completion(id, r) in CompleteAll(t, reply).posted <==> Completion(id, r) in t.posted || (id in t.pending && r == reply)
  {
    if id in t.pending && r == reply {
      var i :| 0 <= i < |t.pending| && t.pending[i] == id;
      assert Completions(t.pending, reply)[i] == Completion(id, r);
    }
  }

  lemma DisconnectReplies(l: Link, o: Options, e: Errc, id: U64, r: Reply)
    requires LinkInv(l, o)
    ensures Completion(id, r) in Disconnect(l, o, e).table.posted <==>
              Completion(id, r) in l.table.posted || (id in l.table.pending && r == Failed(e))
  {
    hide CompleteAll;
    AllReplied(l.table, Failed(e), id, r);
  }

  lemma FrameReplies(l: Link, o: Options, f: Frame, trust: Snapshot, controllerKey: Bytes, c: Credentials, id: U64, r: Reply)
    requires LinkInv(l, o) && l.connected
    ensures Completion(id, r) in HandleFrame(l, o, f, trust, controllerKey, c).table.posted <==>
              || Completion(id, r) in l.table.posted
              || (id in l.table.pending && f.kind.Response? && f.id == id && r == Answer(f.payload))
              || (id in l.table.pending && r.Failed? && Fatal(l, o, f) == Some(r.error))
  {
    if l.table.pending == [] {
      NothingToReply(l, o, f, trust, controllerKey, c);
    } else {
      PendingMeansReady(l, o);
      EstablishedFrame(l, o, f, trust, controllerKey, c);
      hide HandleFrame, Fatal, LinkInv, Disconnect;
      if Fatal(l, o, f).Some? { DisconnectReplies(l, o, Fatal(l, o, f).value, id, r); }
    }
  }

  /** On an established link a frame takes it down, completes a request, or leaves the table alone. */
  lemma EstablishedFrame(l: Link, o: Options, f: Frame, trust: Snapshot, controllerKey: Bytes, c: Credentials)
    requires l.connected && l.hs.auth.Done?
    ensures var t := HandleFrame(l, o, f, trust, controllerKey, c).table;
            match Fatal(l, o, f)
            case Some(e) => t == Disconnect(l, o, e).table
            case None => t == if f.kind.Response? then Complete(l.table, f.id, Answer(f.payload)) else l.table
  {
    hide Disconnect, Complete, DecodeUpdate, DecodeIdentity;
  }

  lemma PendingMeansReady(l: Link, o: Options)
    requires LinkInv(l, o) && l.table.pending != []
    ensures l.ready && l.hs.auth.Done?
  {}

  /** Without pending requests a frame replies to nobody. */
  lemma NothingToReply(l: Link, o: Options, f: Frame, trust: Snapshot, controllerKey: Bytes, c: Credentials)
    requires l.table.pending == []
    ensures HandleFrame(l, o, f, trust, controllerKey, c).table.posted == l.table.posted
  {
    hide Disconnect, HandleHello, HandleHelloAuth, HandleEpochConfig, HandleUnauthenticated, HandlePlain;
    if !o.authenticated {
      UnauthenticatedReplies(l, o, f);
    } else if f.kind.Hello? {
      HelloReplies(l, o, f.payload, trust, c.sign);
    } else if f.kind.HelloAuth? {
      AuthReplies(l, o, f.payload, NeighborKey(trust.neighbors, l.hs.peerId), c.verify);
    } else if f.kind.EpochConfig? {
      UpdateReplies(l, o, f.payload, controllerKey, c);
    } else {
      DownReplies(l, o, PermissionDenied);
      PlainReplies(l, o, f);
    }
  }

  lemma UnauthenticatedReplies(l: Link, o: Options, f: Frame)
    requires l.table.pending == []
    ensures HandleUnauthenticated(l, o, f).table.posted == l.table.posted
  {
    hide Disconnect, HandlePlain;
    DownReplies(l, o, ProtocolError);
    DownReplies(l, o, PermissionDenied);
    PlainReplies(l, o, f);
  }

  lemma UpdateReplies(l: Link, o: Options, payload: Bytes, controllerKey: Bytes, c: Credentials)
    requires l.table.pending == []
    ensures HandleEpochConfig(l, o, payload, controllerKey, c).0.table.posted == l.table.posted
  {
    hide Disconnect, DecodeUpdate;
    DownReplies(l, o, ProtocolError);
  }

  lemma DownReplies(l: Link, o: Options, e: Errc)
    requires l.table.pending == []
    ensures Disconnect(l, o, e).table.posted == l.table.posted
  {
    NoReplies(l.table);
    hide CompleteAll;
  }

  lemma HelloReplies(l: Link, o: Options, payload: Bytes, trust: Snapshot, sign: Bytes -> Option<Bytes>)
    requires l.table.pending == []
    ensures HandleHello(l, o, payload, trust, sign).0.table.posted == l.table.posted
  {
    hide Disconnect, DecodeIdentity, AuthMessage, EncodeIdentity, Remember, Acceptable;
    forall m: Link, e | m.table == l.table ensures Disconnect(m, o, e).table.posted == l.table.posted { DownReplies(m, o, e); }
  }

  lemma AuthReplies(l: Link, o: Options, payload: Bytes, key: Bytes, verify: (Bytes, Bytes, Bytes) -> bool)
    requires l.table.pending == []
    ensures HandleHelloAuth(l, o, payload, key, verify).table.posted == l.table.posted
  {
    NoReplies(l.table);
    hide CompleteAll, DecodeIdentity, AuthMessage;
  }

  lemma PlainReplies(l: Link, o: Options, f: Frame)
    requires l.table.pending == []
    ensures HandlePlain(l, o, f).table.posted == l.table.posted
  {
    NoReplies(l.table);
    hide CompleteAll;
  }

  lemma NoReplies(t: Table)
    requires t.pending == []
    ensures forall e :: CompleteAll(t, Failed(e)).posted == t.posted
  {
    forall e ensures CompleteAll(t, Failed(e)).posted == t.posted {
      assert Completions([], Failed(e)) == [];
    }
  }

  lemma TaskReplies(l: Link, o: Options, id: U64, payload: Bytes, x: U64, r: Reply)
    requires LinkInv(l, o) && id !in l.table.pending
    ensures Completion(x, r) in RunRequest(l, o, id, payload).table.posted <==>
              Completion(x, r) in l.table.posted || (x == id && r.Failed? && RefusedBy(l, o, payload) == Some(r.error))
  {
    hide Complete, InsertId;
    RegisteredMeansQueued(l, o, id, payload);
    InsertedPending(l.table.pending, id, l, o);
  }

  lemma InsertedPending(pending: seq<U64>, id: U64, l: Link, o: Options)
    requires Ascending(pending)
    ensures id in InsertId(pending, id)
  {
    InsertMembers(pending, id);
    assert id in multiset(InsertId(pending, id));
  }

  lemma StepReplies(s: System, step: Step, o: Options, id: U64, r: Reply)
    requires Inv(s, o) && Enabled(s, step)
    ensures Completion(id, r) in Next(s, step, o).link.table.posted <==>
              Completion(id, r) in s.link.table.posted || Causes(s, step, o, id, r)
  {
    hide HandleFrame, Disconnect, RunRequest, Fatal, RefusedBy, Located, LinkInv;
    var l := s.link;
    match step
    case RunTask(i) =>
      NotPendingYet(s, i, o);
      TaskReplies(l, o, s.tasks[i].id, s.tasks[i].payload, id, r);
    case Receive(f, trust, key, c) => FrameReplies(l, o, f, trust, key, c, id, r);
    case Lose(error) => DisconnectReplies(l, o, error, id, r);
    case Reattach(nonce, epoch) => AttachReplies(l, o, nonce, epoch);
    case TrustChange(trust) =>
      RecheckReplies(l, o, trust, id, r);
    case RunStop => StopReplies(l, o, id, r);
    case _ =>
  }

  lemma RecheckReplies(l: Link, o: Options, trust: Snapshot, id: U64, r: Reply)
    requires LinkInv(l, o)
    ensures var target := if l.peer != [] then l.peer else o.expectedPeer;
            Completion(id, r) in Recheck(l, o, trust).table.posted <==>
              || Completion(id, r) in l.table.posted
              || (&& id in l.table.pending && r == Failed(PermissionDenied)
                  && !l.stopped && target != [] && target != o.nodeId && !Trusts(trust.neighbors, target))
  {
    hide CompleteAll, Trusts;
    AllReplied(l.table, Failed(PermissionDenied), id, r);
  }

  lemma AttachReplies(l: Link, o: Options, nonce: Bytes, epoch: U64)
    requires LinkInv(l, o) && !l.connected
    ensures Attach(l, o, nonce, epoch).table.posted == l.table.posted
  {
    hide HelloFrame;
    assert forall e: Errc :: Completions([], Failed(e)) == [];
  }

  lemma StopReplies(l: Link, o: Options, id: U64, r: Reply)
    requires LinkInv(l, o)
    ensures Completion(id, r) in StopOnExecutor(l, o).table.posted <==>
              Completion(id, r) in l.table.posted || (id in l.table.pending && r == Failed(OperationCanceled))
  {
    hide CompleteAll;
    var m := Disconnect(l.(reconnecting := false), o, OperationCanceled);
    AllReplied(l.table, Failed(OperationCanceled), id, r);
    AllReplied(m.table, Failed(OperationCanceled), id, r);
    assert CompleteAll(l.table, Failed(OperationCanceled)).pending == [] by { NonePending(l.table, Failed(OperationCanceled)); }
  }

  lemma NonePending(t: Table, reply: Reply)
    ensures CompleteAll(t, reply).pending == []
  {}

  /**
   * Over every run a request is completed with a reply exactly if some step
   * caused it: the peer's response with that id, carrying its payload; a
   * timeout or cancellation of that id; the refusal its own task met, by name;
   * the loss, stop, revocation or fatal frame that took the link down while it
   * was pending, with that very error.
   */
  lemma {:induction false} RepliesExactly(states: seq<System>, steps: seq<Step>, o: Options, k: nat, id: U64, r: Reply)
    requires Run(states, steps, o) && k < |states|
    ensures Completion(id, r) in states[k].link.table.posted <==> exists j :: 0 <= j < k && Causes(states[j], steps[j], o, id, r)
  {
    hide Causes, Next, Enabled, Inv;
    if k > 0 {
      RepliesExactly(states, steps, o, k - 1, id, r);
      RunInv(states, steps, o, k - 1);
      StepReplies(states[k - 1], steps[k - 1], o, id, r);
    }
  }

  // ---------------------------------------------------------------- coming back

  /** Connected, or about to be, unless stopped, revoked or not the connecting side. */
  predicate Returning(l: Link, o: Options) { l.connected || l.reconnecting || l.stopped || l.peerRevoked || !o.client }

  lemma StepReturns(s: System, step: Step, o: Options)
    requires Enabled(s, step) && Returning(s.link, o)
    ensures Returning(Next(s, step, o).link, o)
  {
    hide Complete, CompleteAll, DecodeUpdate, AuthMessage, DecodeIdentity, EncodeIdentity, Remember, Trusts, HelloFrame, InsertId;
  }

  /** A connecting link that was up and went down has a reconnect scheduled, unless it was stopped or its peer revoked. */
  lemma {:induction false} ComesBack(states: seq<System>, steps: seq<Step>, o: Options, j: nat, k: nat)
    requires Run(states, steps, o) && j <= k < |states| && states[j].link.connected
    ensures Returning(states[k].link, o)
    decreases k
  {
    hide Next, Enabled;
    if j < k {
      ComesBack(states, steps, o, j, k - 1);
      StepReturns(states[k - 1], steps[k - 1], o);
    }
  }

  /** Stopped, down, with nothing pending and no reconnect scheduled. */
  predicate AtRest(l: Link) { l.stopped && !l.connected && !l.ready && !l.reconnecting && l.table.pending == [] }

  lemma StepRests(s: System, step: Step, o: Options)
    requires Inv(s, o) && Enabled(s, step) && (step.RunStop? || AtRest(s.link))
    ensures AtRest(Next(s, step, o).link)
  {
    hide HandleFrame, InsertId, Completions, Located;
  }

  /** Once a stop has run, the link is down for good and schedules no reconnect. */
  lemma {:induction false} StoppedForGood(states: seq<System>, steps: seq<Step>, o: Options, j: nat, k: nat)
    requires Run(states, steps, o) && j < k < |states| && steps[j].RunStop?
    ensures AtRest(states[k].link)
    decreases k
  {
    hide Next, Enabled, Inv, AtRest;
    if j < k - 1 { StoppedForGood(states, steps, o, j, k - 1); }
    RunInv(states, steps, o, k - 1);
    StepRests(states[k - 1], steps[k - 1], o);
  }
}
