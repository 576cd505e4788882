/** In-flight accounting and the fate of every send completion, over all runs of a mesh. */
module MeshAccounting {
  import opened ByteCodec
  import opened Seqs
  import opened EnvelopeCodec
  import opened Lru
  import opened ReplayGuard
  import opened Router
  import opened Mesh

  // ---------------------------------------------------------------- counters over the pool

  predicate Claiming(t: Task) { (t.Admit? || t.Notify? || t.Callback?) && !t.isReport }

  /** 1 for work of node `n` that holds a place in flight. */
  function ClaimsAt(n: Id): Task -> nat { (t: Task) => if t.at == n && Claiming(t) then 1 else 0 }

  /** 1 for such work past the admission check. */
  function AdmittedAt(n: Id): Task -> nat { (t: Task) => if t.at == n && Claiming(t) && !t.Admit? then 1 else 0 }

  function Holds(k: nat): Task -> nat { (t: Task) => if !t.Arrive? && t.token == Some(k) then 1 else 0 }
  function EndedIs(k: nat): Ended -> nat { (e: Ended) => if e.token == k then 1 else 0 }
  function LostIs(k: nat): nat -> nat { (x: nat) => if x == k then 1 else 0 }

  lemma {:induction false} ZeroTotal<T>(s: seq<T>, w: T -> nat)
    requires forall i :: 0 <= i < |s| ==> w(s[i]) == 0
    ensures Total(s, w) == 0
  {
    if s != [] { ZeroTotal(s[1..], w); }
  }

  lemma NoTotals(n: Id, k: nat)
    ensures Total<Task>([], ClaimsAt(n)) == Total<Task>([], AdmittedAt(n)) == Total<Task>([], Holds(k)) == 0
    ensures Total<Ended>([], EndedIs(k)) == Total<nat>([], LostIs(k)) == 0
  {}

  lemma OneTotal<T>(x: T, w: T -> nat)
    ensures Total([x], w) == w(x)
  {
    assert Total([x], w) == w(x) + Total([x][1..], w);
  }

  // ---------------------------------------------------------------- the shape of what a router posts

  /** Router-made work: handoffs of this node that claim nothing and owe no completion. */
  ghost predicate Plain(r: Router, tasks: seq<Task>) {
    forall i :: 0 <= i < |tasks| ==> tasks[i].Handoff? && tasks[i].at == r.id && tasks[i].token.None?
  }

  lemma ReportPlain(r: Router, o: Options, back: Back, code: Code, env: Env)
    ensures Plain(r, Report(r, o, back, code, env).0)
  {}

  lemma AcceptPlain(r: Router, o: Options, e: Envelope, env: Env)
    requires e.routePos <= |e.route|
    ensures var out := Accept(r, o, e, env); out.r == r && Plain(r, out.tasks) && out.ended == [] && out.lost == []
  {
    hide EncodeEnvelope, Unseal;
  }

  /** The outcome of a step that only learns and reports. */
  ghost predicate PlainOut(r: Router, out: Out) {
    && Plain(r, out.tasks) && out.ended == [] && out.lost == []
    && out.r.id == r.id && out.r.inFlight == r.inFlight && out.r.stopped == r.stopped
  }

  lemma DeliverPlain(r: Router, o: Options, e: Envelope, env: Env)
    requires ValidOptions(o) && e.routePos <= |e.route|
    ensures PlainOut(r, Deliver(r, o, e, env))
  {
    hide Report, Accept, InTolerance, NonceStep, Touch, Remembered, Has;
    var r1 := r.(nonces := NonceStep(r.nonces, e.source, e.nonce, o.caps));
    var r2 := if o.dedup then r1.(seen := Touch(r1.seen, e.messageId, 0, 0, o.seenCapacity)) else r1;
    ReportPlain(r, o, BackOf(e), ReplayRejected, env);
    ReportPlain(r1, o, BackOf(e), ReplayRejected, env);
    AcceptPlain(r2, o, e, env);
  }

  lemma ForwardPlain(r: Router, o: Options, e: Envelope, env: Env)
    requires ValidOptions(o) && e.routePos <= |e.route| <= 255
    ensures PlainOut(r, Forward(r, o, e, env))
  {
    hide Report, Touch, Has, EncodeHeader, Encodable;
    var r1 := r.(seen := Touch(r.seen, e.messageId, 0, 0, o.seenCapacity));
    ReportPlain(r1, o, BackOf(e), Unroutable, env);
    ReportPlain(r1, o, BackOf(e), TtlExhausted, env);
  }

  lemma ReceivePlain(r: Router, o: Options, wire: Bytes, env: Env)
    requires ValidOptions(o)
    ensures PlainOut(r, Receive(r, o, wire, env))
  {
    hide Report, Deliver, Forward, DecodeEnvelope;
    match DecodeEnvelope(wire, o.limits)
    case Malformed =>
    case UnknownVersion =>
    case OkUnknownType(e) =>
      EncodeDecodeUnknown(wire, o.limits);
      ReportPlain(r, o, BackOf(e).(silent := false), UnknownType, env);
    case Ok(e) =>
      EncodeDecode(wire, o.limits);
      DeliverPlain(r, o, e, env);
      ForwardPlain(r, o, e, env);
  }

  lemma PlainCounts(r: Router, tasks: seq<Task>, n: Id, k: nat)
    requires Plain(r, tasks)
    ensures Total(tasks, ClaimsAt(n)) == 0 && Total(tasks, AdmittedAt(n)) == 0 && Total(tasks, Holds(k)) == 0
  {
    ZeroTotal(tasks, ClaimsAt(n));
    ZeroTotal(tasks, AdmittedAt(n));
    ZeroTotal(tasks, Holds(k));
  }

  // ---------------------------------------------------------------- what one task conserves

  /** Claims move with the counter; a token is passed on, called or destroyed. */
  ghost predicate Conserves(r: Router, t: Task, out: Out, n: Id, k: nat) {
    && out.r.id == r.id
    && Total(out.tasks, ClaimsAt(n)) + (if n == r.id then r.inFlight else 0)
       == ClaimsAt(n)(t) + (if n == r.id then out.r.inFlight else 0)
    && Total(out.tasks, Holds(k)) + Total(out.ended, EndedIs(k)) + Total(out.lost, LostIs(k)) == Holds(k)(t)
  }

  lemma EndCounts(token: Option<nat>, error: Option<Errc>, k: nat)
    ensures Total(End(token, error), EndedIs(k)) == if token == Some(k) then 1 else 0
  {
    if token.Some? { OneTotal(Ended(token.value, error), EndedIs(k)); }
  }

  lemma SendConserves(r: Router, o: Options, t: Task, env: Env, n: Id, k: nat)
    requires t.Send? && t.at == r.id
    ensures Conserves(r, t, RunSend(r, o, t.m, t.token, env), n, k)
  {
    hide Refusal, Prepare, Encodable, EncodeHeader, Total;
    var out := RunSend(r, o, t.m, t.token, env);
    NoTotals(n, k);
    if out.ended != [] { OneTotal(out.ended[0], EndedIs(k)); }
    if out.lost != [] { OneTotal(out.lost[0], LostIs(k)); }
    if out.tasks != [] {
      OneTotal(out.tasks[0], Holds(k));
      OneTotal(out.tasks[0], ClaimsAt(n));
    }
  }

  lemma ArriveConserves(r: Router, o: Options, t: Task, env: Env, n: Id, k: nat)
    requires ValidOptions(o) && t.Arrive? && t.at == r.id
    ensures Conserves(r, t, Receive(r, o, t.wire, env), n, k)
  {
    hide Receive, Plain, Total;
    NoTotals(n, k);
    ReceivePlain(r, o, t.wire, env);
    PlainCounts(r, Receive(r, o, t.wire, env).tasks, n, k);
  }

  /** A report posted next to a completion, with the place in flight given back or not. */
  lemma FailConserves(r: Router, o: Options, t: Task, out: Out, code: Code, error: Option<Errc>, env: Env, n: Id, k: nat)
    requires (t.Handoff? && t.isReport) || t.Admit? || t.Callback?
    requires t.Admit? ==> !t.isReport
    requires t.at == r.id
    requires var r1 := if t.isReport then r else r.(inFlight := r.inFlight - 1);
             out == Reported(r1, o, t.back, code, env).(ended := End(t.token, error))
    ensures Conserves(r, t, out, n, k)
  {
    hide Report, Plain, Total;
    NoTotals(n, k);
    var r1 := if t.isReport then r else r.(inFlight := r.inFlight - 1);
    ReportPlain(r1, o, t.back, code, env);
    PlainCounts(r1, Report(r1, o, t.back, code, env).0, n, k);
    EndCounts(t.token, error, k);
  }

  lemma LookUpConserves(r: Router, o: Options, t: Task, env: Env, n: Id, k: nat)
    requires t.at == r.id && ((t.Handoff? && t.isReport) || (t.Admit? && !t.isReport))
    ensures Conserves(r, t, LookUp(r, o, t, env), n, k)
  {
    hide Report, Total;
    NoTotals(n, k);
    if t.next !in r.links {
      FailConserves(r, o, t, LookUp(r, o, t, env), Unroutable, Some(HostUnreachable), env, n, k);
    } else {
      var x := Notify(r.id, t.next, t.wire, t.back, t.isReport, t.token);
      OneTotal(x, ClaimsAt(n));
      OneTotal(x, Holds(k));
    }
  }

  lemma HandoffConserves(r: Router, o: Options, t: Task, env: Env, n: Id, k: nat)
    requires t.Handoff? && t.at == r.id
    ensures Conserves(r, t, RunHandoff(r, o, t, env), n, k)
  {
    hide LookUp, Total;
    NoTotals(n, k);
    if r.stopped {
      EndCounts(t.token, Some(OperationCanceled), k);
    } else if t.isReport {
      LookUpConserves(r, o, t, env, n, k);
    } else {
      var x := Admit(r.id, t.next, t.wire, t.back, t.isReport, t.token, r.inFlight);
      OneTotal(x, ClaimsAt(n));
      OneTotal(x, Holds(k));
    }
  }

  lemma AdmitConserves(r: Router, o: Options, t: Task, env: Env, n: Id, k: nat)
    requires t.Admit? && !t.isReport && t.at == r.id
    ensures Conserves(r, t, RunAdmit(r, o, t, env), n, k)
  {
    hide LookUp, Report;
    if t.before >= o.maxInFlight {
      FailConserves(r, o, t, RunAdmit(r, o, t, env), QueueOverflow, Some(NoBufferSpace), env, n, k);
    } else {
      LookUpConserves(r, o, t, env, n, k);
    }
  }

  lemma NotifyConserves(r: Router, t: Task, error: Option<Errc>, n: Id, k: nat)
    requires t.Notify? && t.at == r.id
    ensures Conserves(r, t, RunNotify(r, t, error), n, k)
  {
    hide Total;
    NoTotals(n, k);
    var sent := if error.None? then [Arrive(t.next, t.wire)] else [];
    var callback := Callback(t.at, error, t.back, t.isReport, t.token);
    TotalConcat(sent, [callback], ClaimsAt(n));
    TotalConcat(sent, [callback], Holds(k));
    ZeroTotal(sent, ClaimsAt(n));
    ZeroTotal(sent, Holds(k));
    OneTotal(callback, ClaimsAt(n));
    OneTotal(callback, Holds(k));
  }

  lemma CallbackConserves(r: Router, o: Options, t: Task, env: Env, n: Id, k: nat)
    requires t.Callback? && t.at == r.id
    ensures Conserves(r, t, RunCallback(r, o, t, env), n, k)
  {
    hide Report, Total;
    NoTotals(n, k);
    if t.error.None? {
      EndCounts(t.token, t.error, k);
    } else {
      FailConserves(r, o, t, RunCallback(r, o, t, env),
                    if t.error.value.NoBufferSpace? then QueueOverflow else Unroutable, t.error, env, n, k);
    }
  }

  lemma ExecuteConserves(r: Router, o: Options, t: Task, env: Env, error: Option<Errc>, n: Id, k: nat)
    requires ValidOptions(o) && t.at == r.id && (t.Admit? ==> !t.isReport)
    ensures Conserves(r, t, Execute(r, o, t, env, error), n, k)
  {
    hide Conserves, RunSend, Receive, RunHandoff, RunAdmit, RunNotify, RunCallback;
    match t
    case Send(_, _, _) => SendConserves(r, o, t, env, n, k);
    case Arrive(_, _) => ArriveConserves(r, o, t, env, n, k);
    case Handoff(_, _, _, _, _, _) => HandoffConserves(r, o, t, env, n, k);
    case Admit(_, _, _, _, _, _, _) => AdmitConserves(r, o, t, env, n, k);
    case Notify(_, _, _, _, _, _) => NotifyConserves(r, t, error, n, k);
    case Callback(_, _, _, _, _) => CallbackConserves(r, o, t, env, n, k);
  }

  // ---------------------------------------------------------------- invariants of the mesh

  /** A mesh before anything was sent. */
  ghost predicate Start(s: Mesh) {
    && s.pool == [] && s.ended == [] && s.lost == [] && s.asked == [] && s.made == []
    && forall n :: n in s.routers ==> s.routers[n].id == n && ValidId(n) && s.routers[n].inFlight == 0
  }

  ghost predicate Named(s: Mesh) { forall n :: n in s.routers ==> s.routers[n].id == n && ValidId(n) }

  ghost predicate CountersRight(s: Mesh) {
    forall n :: n in s.routers ==> s.routers[n].inFlight == Total(s.pool, ClaimsAt(n))
  }

  /** Every completion asked for is in exactly one place. */
  ghost predicate TokensRight(s: Mesh) {
    forall k: nat :: Total(s.pool, Holds(k)) + Total(s.ended, EndedIs(k)) + Total(s.lost, LostIs(k)) == TokenCount(s, k)
  }

  function TokenCount(s: Mesh, k: nat): nat { if k < |s.asked| then 1 else 0 }

  /** Work that claims a place belongs to an existing router; admission checks are never of reports. */
  ghost predicate PoolShape(s: Mesh) {
    forall i :: 0 <= i < |s.pool| ==>
      && (s.pool[i].Admit? ==> !s.pool[i].isReport)
      && (!s.pool[i].Arrive? ==> s.pool[i].at in s.routers)
  }

  ghost predicate Inv(s: Mesh) { Named(s) && CountersRight(s) && TokensRight(s) && PoolShape(s) }

  lemma RunCounters(s: Mesh, i: nat, env: Env, error: Option<Errc>, cfg: Config, n: Id, k: nat)
    requires Configured(cfg) && Inv(s) && Enabled(s, Run(i, env, error))
    ensures var t := Next(s, Run(i, env, error), cfg);
            && (n in t.routers ==> t.routers[n].inFlight == Total(t.pool, ClaimsAt(n)))
            && Total(t.pool, Holds(k)) + Total(t.ended, EndedIs(k)) + Total(t.lost, LostIs(k)) == TokenCount(s, k)
  {
    hide Execute, Total;
    var x := s.pool[i];
    var r := s.routers[x.at];
    var out := Outcome(s, i, env, error, cfg);
    ExecuteConserves(r, cfg(x.at), x, env, error, n, k);
    TotalRemove(s.pool, i, ClaimsAt(n));
    TotalRemove(s.pool, i, Holds(k));
    TotalConcat(RemoveAt(s.pool, i), out.tasks, ClaimsAt(n));
    TotalConcat(RemoveAt(s.pool, i), out.tasks, Holds(k));
    TotalConcat(s.ended, out.ended, EndedIs(k));
    TotalConcat(s.lost, out.lost, LostIs(k));
    assert Total(s.pool, Holds(k)) + Total(s.ended, EndedIs(k)) + Total(s.lost, LostIs(k)) == TokenCount(s, k);
    assert n in s.routers ==> s.routers[n].inFlight == Total(s.pool, ClaimsAt(n));
  }

  lemma ExecuteShape(r: Router, o: Options, t: Task, env: Env, error: Option<Errc>)
    requires ValidOptions(o) && t.at == r.id && (t.Admit? ==> !t.isReport)
    ensures var out := Execute(r, o, t, env, error);
            && out.r.id == r.id && out.r.stopped == r.stopped
            && forall i :: 0 <= i < |out.tasks| ==>
                 && (out.tasks[i].Admit? ==> !out.tasks[i].isReport && t.Handoff? && !t.isReport && out.tasks[i].before == r.inFlight)
                 && (!out.tasks[i].Arrive? ==> out.tasks[i].at == r.id)
                 && (out.tasks[i].Send? ==> false)
  {
    hide Receive, Report, Refusal, Prepare, Encodable, EncodeHeader;
    if t.Arrive? { ReceivePlain(r, o, t.wire, env); }
    forall q: Router, back, code ensures Plain(q, Report(q, o, back, code, env).0) { ReportPlain(q, o, back, code, env); }
  }

  lemma RunShape(s: Mesh, i: nat, env: Env, error: Option<Errc>, cfg: Config)
    requires Configured(cfg) && Named(s) && PoolShape(s) && Enabled(s, Run(i, env, error))
    ensures Named(Next(s, Run(i, env, error), cfg)) && PoolShape(Next(s, Run(i, env, error), cfg))
  {
    hide Execute;
    var x := s.pool[i];
    ExecuteShape(s.routers[x.at], cfg(x.at), x, env, error);
  }

  lemma RunStepInv(s: Mesh, i: nat, env: Env, error: Option<Errc>, cfg: Config)
    requires Configured(cfg) && Inv(s) && Enabled(s, Run(i, env, error))
    ensures Inv(Next(s, Run(i, env, error), cfg))
  {
    hide Total;
    var t := Next(s, Run(i, env, error), cfg);
    RunShape(s, i, env, error, cfg);
    forall n | n in t.routers ensures t.routers[n].inFlight == Total(t.pool, ClaimsAt(n)) {
      RunCounters(s, i, env, error, cfg, n, 0);
    }
    forall k: nat ensures Total(t.pool, Holds(k)) + Total(t.ended, EndedIs(k)) + Total(t.lost, LostIs(k)) == TokenCount(t, k) {
      RunCounters(s, i, env, error, cfg, [], k);
    }
  }

  lemma DropStepInv(s: Mesh, i: nat, cfg: Config)
    requires Configured(cfg) && Inv(s) && Enabled(s, Drop(i))
    ensures Inv(Next(s, Drop(i), cfg))
  {
    hide Total;
    var t := Next(s, Drop(i), cfg);
    forall n | n in t.routers ensures t.routers[n].inFlight == Total(t.pool, ClaimsAt(n)) {
      TotalRemove(s.pool, i, ClaimsAt(n));
    }
    forall k: nat ensures Total(t.pool, Holds(k)) + Total(t.ended, EndedIs(k)) + Total(t.lost, LostIs(k)) == TokenCount(t, k) {
      TotalRemove(s.pool, i, Holds(k));
    }
  }

  lemma AskStepInv(s: Mesh, at: Id, m: Envelope, cfg: Config)
    requires Configured(cfg) && Inv(s) && Enabled(s, Ask(at, m))
    ensures Inv(Next(s, Ask(at, m), cfg))
  {
    hide Total;
    var t := Next(s, Ask(at, m), cfg);
    var x := Send(at, m, Some(|s.asked|));
    forall n | n in t.routers ensures t.routers[n].inFlight == Total(t.pool, ClaimsAt(n)) {
      TotalAdd(s.pool, x, ClaimsAt(n));
    }
    forall k: nat ensures Total(t.pool, Holds(k)) + Total(t.ended, EndedIs(k)) + Total(t.lost, LostIs(k)) == TokenCount(t, k) {
      TotalAdd(s.pool, x, Holds(k));
    }
  }

  /** Links, keys and the stop flag: no work moves. */
  lemma AdminStepInv(s: Mesh, step: Step, cfg: Config)
    requires Configured(cfg) && Inv(s) && Enabled(s, step) && !step.Run? && !step.Drop? && !step.Ask?
    ensures Inv(Next(s, step, cfg))
  {
    AdminKeeps(s, step, cfg);
    hide Next, Enabled, ClaimsAt, Holds, EndedIs, LostIs, Total;
    var t := Next(s, step, cfg);
    forall k: nat ensures Total(t.pool, Holds(k)) + Total(t.ended, EndedIs(k)) + Total(t.lost, LostIs(k)) == TokenCount(t, k) {
      assert Total(s.pool, Holds(k)) + Total(s.ended, EndedIs(k)) + Total(s.lost, LostIs(k)) == TokenCount(s, k);
    }
  }

  lemma AdminKeeps(s: Mesh, step: Step, cfg: Config)
    requires Configured(cfg) && Enabled(s, step) && !step.Run? && !step.Drop? && !step.Ask?
    ensures var t := Next(s, step, cfg);
            && t == s.(routers := t.routers) && t.routers.Keys == s.routers.Keys
            && forall n :: n in s.routers ==> t.routers[n].id == s.routers[n].id && t.routers[n].inFlight == s.routers[n].inFlight
  {}

  lemma StepInv(s: Mesh, step: Step, cfg: Config)
    requires Configured(cfg) && Inv(s) && Enabled(s, step)
    ensures Inv(Next(s, step, cfg))
  {
    hide Execute, Inv;
    if step.Run? {
      RunStepInv(s, step.i, step.env, step.error, cfg);
    } else if step.Drop? {
      DropStepInv(s, step.i, cfg);
    } else if step.Ask? {
      AskStepInv(s, step.at, step.m, cfg);
    } else {
      AdminStepInv(s, step, cfg);
    }
  }

  lemma StartInv(s: Mesh)
    requires Start(s)
    ensures Inv(s)
  {
    forall k: nat ensures Total(s.pool, Holds(k)) + Total(s.ended, EndedIs(k)) + Total(s.lost, LostIs(k)) == TokenCount(s, k) {
      NoTotals([], k);
    }
  }

  lemma {:induction false} RunInv(states: seq<Mesh>, steps: seq<Step>, cfg: Config, k: nat)
    requires Configured(cfg) && IsRun(states, steps, cfg) && Start(states[0]) && k < |states|
    ensures Inv(states[k])
  {
    hide Inv, Next, Enabled, Start;
    if k == 0 {
      StartInv(states[0]);
    } else {
      RunInv(states, steps, cfg, k - 1);
      assert IsStep(states[k - 1], steps[k - 1], states[k], cfg);
      StepInv(states[k - 1], steps[k - 1], cfg);
    }
  }

  // ---------------------------------------------------------------- admission

  /** While a check is under way it knows a bound on what is admitted, and it is the only one at its node. */
  ghost predicate AdmissionRight(s: Mesh, cfg: Config) {
    && (forall n :: n in s.routers ==> Total(s.pool, AdmittedAt(n)) <= cfg(n).maxInFlight)
    && (forall i :: 0 <= i < |s.pool| && s.pool[i].Admit? ==> Total(s.pool, AdmittedAt(s.pool[i].at)) <= s.pool[i].before)
    && (forall i, j :: 0 <= i < j < |s.pool| && s.pool[i].Admit? && s.pool[j].Admit? ==> s.pool[i].at != s.pool[j].at)
  }

  /** Only a check that passes admits anything. */
  lemma ExecuteAdmits(r: Router, o: Options, t: Task, env: Env, error: Option<Errc>, n: Id)
    requires ValidOptions(o) && t.at == r.id && (t.Admit? ==> !t.isReport)
    ensures var out := Execute(r, o, t, env, error);
            Total(out.tasks, AdmittedAt(n)) <=
              AdmittedAt(n)(t) + if t.Admit? && t.before < o.maxInFlight && n == r.id then 1 else 0
  {
    hide RunSend, Receive, RunHandoff, RunAdmit, RunCallback, Total;
    var out := Execute(r, o, t, env, error);
    match t
    case Send(_, _, _) =>
      SendShape(r, o, t.m, t.token, env);
      ZeroTotal(out.tasks, AdmittedAt(n));
    case Arrive(_, _) =>
      ReceivePlain(r, o, t.wire, env);
      PlainCounts(r, out.tasks, n, 0);
    case Notify(_, _, _, _, _, _) =>
      var sent := if error.None? then [Arrive(t.next, t.wire)] else [];
      var callback := Callback(t.at, error, t.back, t.isReport, t.token);
      TotalConcat(sent, [callback], AdmittedAt(n));
      ZeroTotal(sent, AdmittedAt(n));
      OneTotal(callback, AdmittedAt(n));
    case Handoff(_, _, _, _, _, _) => HandoffAdmits(r, o, t, env, n);
    case Admit(_, _, _, _, _, _, _) => HandoffAdmits(r, o, t, env, n);
    case Callback(_, _, _, _, _) => CallbackAdmits(r, o, t, env, n);
  }

  lemma HandoffAdmits(r: Router, o: Options, t: Task, env: Env, n: Id)
    requires (t.Handoff? || t.Admit?) && t.at == r.id && (t.Admit? ==> !t.isReport)
    ensures var out := if t.Handoff? then RunHandoff(r, o, t, env) else RunAdmit(r, o, t, env);
            Total(out.tasks, AdmittedAt(n)) <= if t.Admit? && t.before < o.maxInFlight && n == r.id then 1 else 0
  {
    hide Report, Total;
    NoTotals(n, 0);
    var out := if t.Handoff? then RunHandoff(r, o, t, env) else RunAdmit(r, o, t, env);
    forall q: Router, code ensures Plain(q, Report(q, o, t.back, code, env).0) { ReportPlain(q, o, t.back, code, env); }
    if |out.tasks| == 1 && !out.tasks[0].Handoff? {
      assert out.tasks == [out.tasks[0]];
      OneTotal(out.tasks[0], AdmittedAt(n));
    } else {
      ZeroTotal(out.tasks, AdmittedAt(n));
    }
  }

  lemma CallbackAdmits(r: Router, o: Options, t: Task, env: Env, n: Id)
    requires t.Callback?
    ensures Total(RunCallback(r, o, t, env).tasks, AdmittedAt(n)) == 0
  {
    hide Report, Total;
    forall q: Router, code ensures Plain(q, Report(q, o, t.back, code, env).0) { ReportPlain(q, o, t.back, code, env); }
    ZeroTotal(RunCallback(r, o, t, env).tasks, AdmittedAt(n));
  }

  lemma SendShape(r: Router, o: Options, m: Envelope, token: Option<nat>, env: Env)
    ensures forall i :: 0 <= i < |RunSend(r, o, m, token, env).tasks| ==> RunSend(r, o, m, token, env).tasks[i].Handoff?
  {
    hide Refusal, Prepare, Encodable, EncodeHeader;
  }

  /** Before a check starts, what is admitted is exactly what is counted. */
  lemma {:induction false} IdleCount(pool: seq<Task>, n: Id)
    requires !Busy(pool, n)
    ensures Total(pool, AdmittedAt(n)) == Total(pool, ClaimsAt(n))
  {
    if pool != [] {
      forall i | 0 <= i < |pool[1..]| ensures !(pool[1..][i].Admit? && pool[1..][i].at == n) {
        assert pool[1..][i] == pool[i + 1];
      }
      IdleCount(pool[1..], n);
    }
  }

  lemma RunNames(s: Mesh)
    requires Inv(s)
    ensures Named(s) && PoolShape(s) && CountersRight(s)
  {}

  lemma RunAdmitted(s: Mesh, i: nat, env: Env, error: Option<Errc>, cfg: Config, n: Id)
    requires Configured(cfg) && Named(s) && PoolShape(s) && Enabled(s, Run(i, env, error))
    ensures var x := s.pool[i];
            Total(Next(s, Run(i, env, error), cfg).pool, AdmittedAt(n)) <=
              Total(s.pool, AdmittedAt(n)) + if x.Admit? && x.before < cfg(x.at).maxInFlight && n == x.at then 1 else 0
  {
    hide Execute, AdmittedAt;
    var x := s.pool[i];
    ExecuteAdmits(s.routers[x.at], cfg(x.at), x, env, error, n);
    TotalRemove(s.pool, i, AdmittedAt(n));
    TotalConcat(RemoveAt(s.pool, i), Outcome(s, i, env, error, cfg).tasks, AdmittedAt(n));
  }

  lemma RunAdmission(s: Mesh, i: nat, env: Env, error: Option<Errc>, cfg: Config)
    requires Configured(cfg) && Inv(s) && AdmissionRight(s, cfg) && Enabled(s, Run(i, env, error))
    ensures AdmissionRight(Next(s, Run(i, env, error), cfg), cfg)
  {
    hide Execute, Inv, AdmittedAt;
    RunNames(s);
    var t := Next(s, Run(i, env, error), cfg);
    forall n: Id | n in t.routers ensures Total(t.pool, AdmittedAt(n)) <= cfg(n).maxInFlight {
      RunAdmitted(s, i, env, error, cfg, n);
    }
    forall j | 0 <= j < |t.pool| && t.pool[j].Admit?
      ensures Total(t.pool, AdmittedAt(t.pool[j].at)) <= t.pool[j].before
      ensures forall l :: 0 <= l < j && t.pool[l].Admit? ==> t.pool[l].at != t.pool[j].at
    {
      if j < |s.pool| - 1 {
        OldAdmit(s, i, env, error, cfg, j);
      } else {
        NewAdmit(s, i, env, error, cfg, j);
      }
    }
  }

  /** A check that was there before is of another node than any task that changed the count. */
  lemma OldAdmit(s: Mesh, i: nat, env: Env, error: Option<Errc>, cfg: Config, j: nat)
    requires Configured(cfg) && Inv(s) && AdmissionRight(s, cfg) && Enabled(s, Run(i, env, error))
    requires var t := Next(s, Run(i, env, error), cfg); j < |s.pool| - 1 && t.pool[j].Admit?
    ensures var t := Next(s, Run(i, env, error), cfg);
            && Total(t.pool, AdmittedAt(t.pool[j].at)) <= t.pool[j].before
            && forall l :: 0 <= l < j && t.pool[l].Admit? ==> t.pool[l].at != t.pool[j].at
  {
    hide Execute, Inv, AdmittedAt;
    RunNames(s);
    var t := Next(s, Run(i, env, error), cfg);
    var j0 := if j < i then j else j + 1;
    assert t.pool[j] == s.pool[j0];
    RunAdmitted(s, i, env, error, cfg, t.pool[j].at);
    forall l | 0 <= l < j && t.pool[l].Admit? ensures t.pool[l].at != t.pool[j].at {
      assert t.pool[l] == s.pool[if l < i then l else l + 1];
    }
  }

  /** A new check is of an idle node, and knows the whole count. */
  lemma NewAdmit(s: Mesh, i: nat, env: Env, error: Option<Errc>, cfg: Config, j: nat)
    requires Configured(cfg) && Inv(s) && AdmissionRight(s, cfg) && Enabled(s, Run(i, env, error))
    requires var t := Next(s, Run(i, env, error), cfg); |s.pool| - 1 <= j < |t.pool| && t.pool[j].Admit?
    ensures var t := Next(s, Run(i, env, error), cfg);
            && Total(t.pool, AdmittedAt(t.pool[j].at)) <= t.pool[j].before
            && forall l :: 0 <= l < j && t.pool[l].Admit? ==> t.pool[l].at != t.pool[j].at
  {
    hide Execute, Inv, AdmittedAt, ClaimsAt;
    RunNames(s);
    var x := s.pool[i];
    var r, o := s.routers[x.at], cfg(x.at);
    var t := Next(s, Run(i, env, error), cfg);
    var kept := RemoveAt(s.pool, i);
    assert t.pool[j] == Outcome(s, i, env, error, cfg).tasks[j - |kept|];
    ExecuteShape(r, o, x, env, error);
    IdleCount(s.pool, x.at);
    RunAdmitted(s, i, env, error, cfg, x.at);
    OnlyOneAdmit(r, o, x, env, error);
    forall l | 0 <= l < j && t.pool[l].Admit? ensures t.pool[l].at != x.at {
      assert t.pool[l] == s.pool[if l < i then l else l + 1];
    }
  }

  lemma OnlyOneAdmit(r: Router, o: Options, t: Task, env: Env, error: Option<Errc>)
    requires ValidOptions(o) && t.Handoff?
    ensures |Execute(r, o, t, env, error).tasks| <= 1
  {
    HandoffLoad(r, o, t, env, o.maxHops);
  }

  lemma DropAdmission(s: Mesh, i: nat, cfg: Config)
    requires Configured(cfg) && AdmissionRight(s, cfg) && Enabled(s, Drop(i))
    ensures AdmissionRight(Next(s, Drop(i), cfg), cfg)
  {
    var t := Next(s, Drop(i), cfg);
    forall n: Id ensures Total(t.pool, AdmittedAt(n)) == Total(s.pool, AdmittedAt(n)) {
      TotalRemove(s.pool, i, AdmittedAt(n));
    }
    hide AdmittedAt;
    forall j | 0 <= j < |t.pool| && t.pool[j].Admit?
      ensures Total(t.pool, AdmittedAt(t.pool[j].at)) <= t.pool[j].before
      ensures forall l :: 0 <= l < j && t.pool[l].Admit? ==> t.pool[l].at != t.pool[j].at
    {
      assert t.pool[j] == s.pool[if j < i then j else j + 1];
      forall l | 0 <= l < j && t.pool[l].Admit? ensures t.pool[l].at != t.pool[j].at {
        assert t.pool[l] == s.pool[if l < i then l else l + 1];
      }
    }
  }

  lemma AskAdmission(s: Mesh, at: Id, m: Envelope, cfg: Config)
    requires Configured(cfg) && AdmissionRight(s, cfg) && Enabled(s, Ask(at, m))
    ensures AdmissionRight(Next(s, Ask(at, m), cfg), cfg)
  {
    var t := Next(s, Ask(at, m), cfg);
    forall n: Id ensures Total(t.pool, AdmittedAt(n)) == Total(s.pool, AdmittedAt(n)) {
      TotalAdd(s.pool, Send(at, m, Some(|s.asked|)), AdmittedAt(n));
    }
  }

  lemma OtherAdmission(s: Mesh, step: Step, cfg: Config)
    requires Configured(cfg) && AdmissionRight(s, cfg) && Enabled(s, step) && !step.Run?
    ensures AdmissionRight(Next(s, step, cfg), cfg)
  {
    if step.Drop? {
      DropAdmission(s, step.i, cfg);
    } else if step.Ask? {
      AskAdmission(s, step.at, step.m, cfg);
    } else {
      assert Next(s, step, cfg).pool == s.pool && Next(s, step, cfg).routers.Keys == s.routers.Keys;
    }
  }

  lemma StartAdmission(s: Mesh, cfg: Config)
    requires Start(s)
    ensures AdmissionRight(s, cfg)
  {}

  lemma {:induction false} RunAdmissionInv(states: seq<Mesh>, steps: seq<Step>, cfg: Config, k: nat)
    requires Configured(cfg) && IsRun(states, steps, cfg) && Start(states[0]) && k < |states|
    ensures AdmissionRight(states[k], cfg)
  {
    hide AdmissionRight, Inv, Next, Enabled, Start;
    if k == 0 {
      StartAdmission(states[0], cfg);
    } else {
      RunAdmissionInv(states, steps, cfg, k - 1);
      RunInv(states, steps, cfg, k - 1);
      var step := steps[k - 1];
      assert IsStep(states[k - 1], step, states[k], cfg);
      if step.Run? {
        RunAdmission(states[k - 1], step.i, step.env, step.error, cfg);
      } else {
        OtherAdmission(states[k - 1], step, cfg);
      }
    }
  }

  /**
   * At every moment of every run, each router's counter is exactly the work
   * past its claim and before its link's answer, and the work admitted never
   * exceeds the limit.
   */
  lemma InFlightAccounted(states: seq<Mesh>, steps: seq<Step>, cfg: Config, k: nat, n: Id)
    requires Configured(cfg) && IsRun(states, steps, cfg) && Start(states[0]) && k < |states|
    requires n in states[k].routers
    ensures states[k].routers[n].inFlight == Total(states[k].pool, ClaimsAt(n))
    ensures Total(states[k].pool, AdmittedAt(n)) <= cfg(n).maxInFlight
  {
    RunInv(states, steps, cfg, k);
    RunAdmissionInv(states, steps, cfg, k);
  }

  // ---------------------------------------------------------------- the fate of completions

  /** The messages whose encoding throws inside the posted task. */
  predicate Throws(m: Envelope) { !m.encrypted && (m.version != 1 || |m.payload| >= 0x1_0000_0000) }

  /**
   * A completion is destroyed without being called exactly when the message
   * passes every check and its encoding throws.
   */
  lemma LostExactly(r: Router, o: Options, m: Envelope, token: Option<nat>, env: Env)
    requires ValidOptions(o) && ValidId(r.id)
    ensures RunSend(r, o, m, token, env).lost != [] <==> token.Some? && Refusal(r, o, m).None? && Throws(m)
  {
    var e := SendFresh(r, o, m, env);
    if Refusal(r, o, m).None? {
      assert forall i :: 0 <= i < |e.route| ==> ValidId(e.route[i]);
      assert Encodable(e) <==> m.version == 1 && |m.payload| < 0x1_0000_0000;
    }
  }

  /** A message that loses its completion: a version byte the caller set to 2. */
  lemma LosesCompletion(r: Router, o: Options, env: Env)
    requires ValidOptions(o) && ValidId(r.id) && !r.stopped
    ensures RunSend(r, o, Blank(Data, [1], [], []).(version := 2), Some(0), env).lost == [0]
    ensures RunSend(r, o, Blank(Data, [1], [], []).(version := 2), Some(0), env).ended == []
  {
    LostExactly(r, o, Blank(Data, [1], [], []).(version := 2), Some(0), env);
  }

  /** Posted sends carry the message asked for; what was lost was bound to throw. */
  ghost predicate LossRight(s: Mesh) {
    && (forall i :: 0 <= i < |s.pool| && s.pool[i].Send? ==>
          s.pool[i].token.Some? && s.pool[i].token.value < |s.asked| && s.asked[s.pool[i].token.value] == s.pool[i].m)
    && (forall i :: 0 <= i < |s.lost| ==> s.lost[i] < |s.asked| && Throws(s.asked[s.lost[i]]))
  }

  lemma ExecuteLoss(r: Router, o: Options, t: Task, env: Env, error: Option<Errc>)
    requires ValidOptions(o) && t.at == r.id && ValidId(r.id) && (t.Admit? ==> !t.isReport)
    ensures var out := Execute(r, o, t, env, error);
            && (out.lost != [] ==> t.Send? && t.token.Some? && out.lost == [t.token.value] && Throws(t.m))
  {
    hide Receive, Report, Refusal, Prepare, Encodable, EncodeHeader, Throws;
    if t.Send? { LostExactly(r, o, t.m, t.token, env); }
    if t.Arrive? { ReceivePlain(r, o, t.wire, env); }
  }

  lemma LossStep(s: Mesh, step: Step, cfg: Config)
    requires Configured(cfg) && Inv(s) && LossRight(s) && Enabled(s, step)
    ensures LossRight(Next(s, step, cfg))
  {
    hide Execute, Throws;
    if step.Run? {
      var x := s.pool[step.i];
      RunNames(s);
      ExecuteLoss(s.routers[x.at], cfg(x.at), x, step.env, step.error);
      ExecuteShape(s.routers[x.at], cfg(x.at), x, step.env, step.error);
    }
  }

  lemma StartLoss(s: Mesh)
    requires Start(s)
    ensures LossRight(s)
  {}

  lemma {:induction false} RunLoss(states: seq<Mesh>, steps: seq<Step>, cfg: Config, k: nat)
    requires Configured(cfg) && IsRun(states, steps, cfg) && Start(states[0]) && k < |states|
    ensures LossRight(states[k])
  {
    hide Inv, LossRight, Next, Enabled, Start;
    if k == 0 {
      StartLoss(states[0]);
    } else {
      RunLoss(states, steps, cfg, k - 1);
      RunInv(states, steps, cfg, k - 1);
      assert IsStep(states[k - 1], steps[k - 1], states[k], cfg);
      LossStep(states[k - 1], steps[k - 1], cfg);
    }
  }

  /**
   * Every completion is, at every moment, in exactly one place: with work still
   * outstanding, called once, or destroyed; and it is destroyed only for a
   * message whose encoding throws. So once the mesh is quiet, a completion of
   * any other message has been called exactly once.
   */
  lemma CompletionOnce(states: seq<Mesh>, steps: seq<Step>, cfg: Config, k: nat, token: nat)
    requires Configured(cfg) && IsRun(states, steps, cfg) && Start(states[0]) && k < |states|
    requires token < |states[k].asked|
    ensures var s := states[k];
            && Total(s.pool, Holds(token)) + Total(s.ended, EndedIs(token)) + Total(s.lost, LostIs(token)) == 1
            && (!Throws(s.asked[token]) ==> Total(s.lost, LostIs(token)) == 0)
            && (s.pool == [] && !Throws(s.asked[token]) ==> Total(s.ended, EndedIs(token)) == 1)
  {
    RunInv(states, steps, cfg, k);
    RunLoss(states, steps, cfg, k);
    var s := states[k];
    assert Total(s.pool, Holds(token)) + Total(s.ended, EndedIs(token)) + Total(s.lost, LostIs(token)) == TokenCount(s, token);
    if !Throws(s.asked[token]) { ZeroTotal(s.lost, LostIs(token)); }
  }
}
