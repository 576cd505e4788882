/** Any number of routers over any link graph: the state machine, and why it always comes to rest. */
module Mesh {
  import opened ByteCodec
  import opened Seqs
  import opened EnvelopeCodec
  import opened Lru
  import opened ReplayGuard
  import opened Router

  /**
   * All routers and all outstanding work, in no particular order: tasks on
   * executors, wires on links, callbacks on their way back. `asked`, `made`,
   * `ended` and `lost` are histories: messages handed to `send`, envelopes put
   * on the wire by their author, completions run, completions destroyed uncalled.
   */
  datatype Mesh = Mesh(
    routers: map<Id, Router>, pool: seq<Task>, ended: seq<Ended>, lost: seq<nat>,
    asked: seq<Envelope>, made: seq<Envelope>)

  datatype Step =
    | Run(i: nat, env: Env, error: Option<Errc>)    // `error` is the link's answer, used by a notify
    | Drop(i: nat)                                  // a wire is lost with its connection
    | Ask(at: Id, m: Envelope)
    | AttachLink(at: Id, neighbor: Id)
    | DetachLink(at: Id, neighbor: Id)
    | AddKey(at: Id, keyId: Byte, key: Bytes)
    | Stop(at: Id)                                  // the flag, from any thread
    | ClearLinks(at: Id)                            // the task it posts

  type Config = Id -> Options

  ghost predicate Configured(cfg: Config) { forall id :: ValidOptions(cfg(id)) }

  /** A handoff half done occupies its router's executor. */
  ghost predicate Busy(pool: seq<Task>, at: Id) {
    exists i :: 0 <= i < |pool| && pool[i].Admit? && pool[i].at == at
  }

  ghost predicate Enabled(s: Mesh, step: Step) {
    match step
    case Run(i, _, _) =>
      && i < |s.pool| && s.pool[i].at in s.routers
      && (s.pool[i].Send? || s.pool[i].Handoff? ==> !Busy(s.pool, s.pool[i].at))
    case Drop(i) => i < |s.pool| && s.pool[i].Arrive?
    case Ask(at, _) => at in s.routers
    case AttachLink(at, _) => at in s.routers
    case DetachLink(at, _) => at in s.routers
    case AddKey(at, _, _) => at in s.routers
    case Stop(at) => at in s.routers
    case ClearLinks(at) => at in s.routers && s.routers[at].stopped
  }

  function Execute(r: Router, o: Options, t: Task, env: Env, error: Option<Errc>): Out
    requires ValidOptions(o)
  {
    match t
    case Send(_, m, token) => RunSend(r, o, m, token, env)
    case Arrive(_, wire) => Receive(r, o, wire, env)
    case Handoff(_, _, _, _, _, _) => RunHandoff(r, o, t, env)
    case Admit(_, _, _, _, _, _, _) => RunAdmit(r, o, t, env)
    case Notify(_, _, _, _, _, _) => RunNotify(r, t, error)
    case Callback(_, _, _, _, _) => RunCallback(r, o, t, env)
  }

  function Outcome(s: Mesh, i: nat, env: Env, error: Option<Errc>, cfg: Config): Out
    requires i < |s.pool| && s.pool[i].at in s.routers && ValidOptions(cfg(s.pool[i].at))
  {
    Execute(s.routers[s.pool[i].at], cfg(s.pool[i].at), s.pool[i], env, error)
  }

  ghost function Next(s: Mesh, step: Step, cfg: Config): Mesh
    requires Enabled(s, step) && Configured(cfg)
  {
    match step
    case Run(i, env, error) =>
      var out := Outcome(s, i, env, error, cfg);
      s.(routers := s.routers[s.pool[i].at := out.r], pool := RemoveAt(s.pool, i) + out.tasks,
         ended := s.ended + out.ended, lost := s.lost + out.lost, made := s.made + out.made)
    case Drop(i) => s.(pool := RemoveAt(s.pool, i))
    case Ask(at, m) => s.(pool := s.pool + [Send(at, m, Some(|s.asked|))], asked := s.asked + [m])
    case AttachLink(at, n) =>
      if s.routers[at].stopped then s
      else s.(routers := s.routers[at := s.routers[at].(links := s.routers[at].links + {n})])
    case DetachLink(at, n) => s.(routers := s.routers[at := s.routers[at].(links := s.routers[at].links - {n})])
    case AddKey(at, k, key) => s.(routers := s.routers[at := s.routers[at].(keys := s.routers[at].keys[k := key])])
    case Stop(at) => s.(routers := s.routers[at := s.routers[at].(stopped := true)])
    case ClearLinks(at) => s.(routers := s.routers[at := s.routers[at].(links := {})])
  }

  ghost predicate IsRun(states: seq<Mesh>, steps: seq<Step>, cfg: Config)
    requires Configured(cfg)
  {
    |states| == |steps| + 1 && forall i :: 0 <= i < |steps| ==> IsStep(states[i], steps[i], states[i + 1], cfg)
  }

  ghost predicate IsStep(s: Mesh, step: Step, t: Mesh, cfg: Config)
    requires Configured(cfg)
  {
    Enabled(s, step) && t == Next(s, step, cfg)
  }

  // ---------------------------------------------------------------- a weight that every step of work lowers

  function Max(a: nat, b: nat): nat { if a >= b then a else b }

  /** Weight of a report about to be handed off, when no router writes a hop budget above `h`. */
  function ReportWeight(h: nat): nat { 5 * h + 5 }

  function AckWeight(h: nat): nat { 10 * h + 10 }

  /** What an arrival may still set off besides being relayed: nothing, a report, or an ack with its own reports. */
  function Allowance(typeByte: Byte, h: nat): nat {
    if typeByte == 3 then 0 else if typeByte == 4 then AckWeight(h) else ReportWeight(h)
  }

  function WireWeight(wire: Bytes, h: nat): nat {
    if |wire| < FIXED_HEADER then 1 else 5 * FieldAt(wire, 4, 4) + 1 + Allowance(wire[1], h)
  }

  function OutgoingWeight(wire: Bytes, back: Back, h: nat): nat {
    Max(WireWeight(wire, h), if back.silent then 0 else ReportWeight(h))
  }

  function Weight(t: Task, h: nat): nat {
    match t
    case Send(_, m, _) => 6 + 5 * (if m.ttl == 0 then h else m.ttl) + Allowance(TypeCode(m.kind), h)
    case Arrive(_, wire) => WireWeight(wire, h)
    case Handoff(_, _, wire, back, _, _) => 4 + OutgoingWeight(wire, back, h)
    case Admit(_, _, wire, back, _, _, _) => 3 + OutgoingWeight(wire, back, h)
    case Notify(_, _, wire, back, _, _) => 2 + OutgoingWeight(wire, back, h)
    case Callback(_, error, back, _, _) => 1 + (if error.Some? && !back.silent then ReportWeight(h) else 0)
  }

  function Weigher(h: nat): Task -> nat { t => Weight(t, h) }

  function Load(tasks: seq<Task>, h: nat): nat { Total(tasks, Weigher(h)) }

  lemma LoadOne(t: Task, h: nat)
    ensures Load([t], h) == Weight(t, h)
  {
    var w := Weigher(h);
    assert Total([t], w) == w(t) + Total([t][1..], w);
  }

  lemma EncodedWeight(e: Envelope, n: nat, payload: Bytes, h: nat)
    ensures WireWeight(EncodeHeader(e, n) + payload, h) == 5 * e.ttl + 1 + Allowance(TypeCode(e.kind), h)
  {
    HeaderThen(e, n, payload);
    FixedFields(e, Routing(e.source, e.destination, e.route, e.routePos, n, payload));
  }

  lemma EmitLoad(r: Router, e: Envelope, h: nat)
    ensures Load(Emit(r, e).0, h) <= 5 + 5 * e.ttl + Allowance(TypeCode(e.kind), h)
    ensures |Emit(r, e).0| <= 1 && |Emit(r, e).1| <= 1
  {
    hide EncodeHeader, WireWeight;
    if EncodeEnvelope(e).Wire? {
      EncodedWeight(e, |e.payload|, e.payload, h);
      LoadOne(Emit(r, e).0[0], h);
    }
  }

  lemma ReportLoad(r: Router, o: Options, back: Back, code: Code, env: Env, h: nat)
    requires 0 < o.maxHops <= h
    ensures Load(Report(r, o, back, code, env).0, h) <= if back.silent then 0 else ReportWeight(h)
    ensures |Report(r, o, back, code, env).0| <= 1 && |Report(r, o, back, code, env).1| <= 1
  {
    hide Emit;
    EmitLoad(r, ReportEnvelope(r, o, back, code, env), h);
  }

  /** What an arriving envelope of a known type sets off weighs less than it did. */
  lemma AcceptLoad(r: Router, o: Options, e: Envelope, env: Env, h: nat)
    requires 0 < o.maxHops <= h && e.routePos <= |e.route|
    ensures var out := Accept(r, o, e, env);
            Load(out.tasks, h) <= Allowance(TypeCode(e.kind), h) && |out.tasks| <= 1 && |out.made| <= 1
  {
    hide Emit, Report, Unseal;
    ReportLoad(r, o, BackOf(e), DecryptFailed, env, h);
    match Unseal(r, e, env)
    case None =>
    case Some(payload) => EmitLoad(r, AckEnvelope(r, o, e.(payload := payload), env), h);
  }

  lemma DeliverLoad(r: Router, o: Options, e: Envelope, env: Env, h: nat)
    requires ValidOptions(o) && o.maxHops <= h && e.routePos <= |e.route|
    ensures var out := Deliver(r, o, e, env);
            Load(out.tasks, h) <= Allowance(TypeCode(e.kind), h) && |out.tasks| <= 1 && |out.made| <= 1
  {
    hide Report, Accept, InTolerance, NonceStep, Touch, Remembered;
    var r1 := r.(nonces := NonceStep(r.nonces, e.source, e.nonce, o.caps));
    var r2 := if o.dedup then r1.(seen := Touch(r1.seen, e.messageId, 0, 0, o.seenCapacity)) else r1;
    ReportLoad(r, o, BackOf(e), ReplayRejected, env, h);
    ReportLoad(r1, o, BackOf(e), ReplayRejected, env, h);
    AcceptLoad(r2, o, e, env, h);
  }

  lemma ForwardLoad(r: Router, o: Options, e: Envelope, env: Env, h: nat)
    requires ValidOptions(o) && o.maxHops <= h && e.routePos <= |e.route| <= 255
    ensures var out := Forward(r, o, e, env);
            Load(out.tasks, h) <= 5 * e.ttl + Allowance(TypeCode(e.kind), h) && |out.tasks| <= 1 && |out.made| <= 1
  {
    hide Report, Touch, EncodeHeader, WireWeight;
    var r1 := r.(seen := Touch(r.seen, e.messageId, 0, 0, o.seenCapacity));
    ReportLoad(r1, o, BackOf(e), Unroutable, env, h);
    ReportLoad(r1, o, BackOf(e), TtlExhausted, env, h);
    if e.ttl > 0 && EncodeEnvelope(Advanced(e)).Wire? {
      EncodedWeight(Advanced(e), |e.payload|, e.payload, h);
      var out := Forward(r, o, e, env);
      if |out.tasks| == 1 { LoadOne(out.tasks[0], h); }
    }
  }

  lemma ReceiveLoad(r: Router, o: Options, wire: Bytes, env: Env, h: nat)
    requires ValidOptions(o) && o.maxHops <= h
    ensures var out := Receive(r, o, wire, env);
            Load(out.tasks, h) < WireWeight(wire, h) && |out.tasks| <= 1 && |out.made| <= 1
  {
    hide Deliver, Forward, Report, EncodeHeader, DecodeEnvelope;
    match DecodeEnvelope(wire, o.limits)
    case Malformed =>
    case UnknownVersion =>
    case OkUnknownType(e) =>
      EncodeDecodeUnknown(wire, o.limits);
      UnknownTypeByte(wire, o.limits);
      ReportLoad(r, o, BackOf(e).(silent := false), UnknownType, env, h);
    case Ok(e) =>
      EncodeDecode(wire, o.limits);
      EncodedWeight(e, |e.payload|, e.payload, h);
      DeliverLoad(r, o, e, env, h);
      ForwardLoad(r, o, e, env, h);
  }

  lemma UnknownTypeByte(wire: Bytes, limits: Limits)
    requires DecodeEnvelope(wire, limits).OkUnknownType?
    ensures |wire| >= FIXED_HEADER && !(1 <= wire[1] <= 4)
  {}

  lemma SendLoad(r: Router, o: Options, m: Envelope, token: Option<nat>, env: Env, h: nat)
    requires ValidOptions(o) && o.maxHops <= h
    ensures var out := RunSend(r, o, m, token, env);
            Load(out.tasks, h) < Weight(Send(r.id, m, token), h) && |out.tasks| <= 1 && |out.made| <= 1
  {
    hide EncodeHeader, WireWeight, Aad, Refusal, Encodable;
    var out := RunSend(r, o, m, token, env);
    if out.tasks != [] {
      var e := Prepare(r, o, m, env).e;
      EncodedWeight(e, |e.payload|, e.payload, h);
      LoadOne(out.tasks[0], h);
    }
  }

  lemma NotifyLoad(r: Router, t: Task, error: Option<Errc>, h: nat)
    requires t.Notify?
    ensures var out := RunNotify(r, t, error);
            Load(out.tasks, h) < Weight(t, h) && |out.tasks| <= 2 && |out.made| <= 1
  {
    hide WireWeight;
    var sent := if error.None? then [Arrive(t.next, t.wire)] else [];
    var callback := Callback(t.at, error, t.back, t.isReport, t.token);
    TotalConcat(sent, [callback], Weigher(h));
    LoadOne(callback, h);
    if error.None? { LoadOne(sent[0], h); }
  }

  lemma LookUpLoad(r: Router, o: Options, t: Task, env: Env, h: nat)
    requires ValidOptions(o) && o.maxHops <= h && (t.Handoff? || t.Admit?)
    ensures var out := LookUp(r, o, t, env);
            Load(out.tasks, h) <= 2 + OutgoingWeight(t.wire, t.back, h) && |out.tasks| <= 1 && |out.made| <= 1
  {
    hide Report, WireWeight;
    ReportLoad(r, o, t.back, Unroutable, env, h);
    ReportLoad(r.(inFlight := r.inFlight - 1), o, t.back, Unroutable, env, h);
    LoadOne(Notify(r.id, t.next, t.wire, t.back, t.isReport, t.token), h);
  }

  lemma HandoffLoad(r: Router, o: Options, t: Task, env: Env, h: nat)
    requires ValidOptions(o) && o.maxHops <= h && t.Handoff?
    ensures var out := RunHandoff(r, o, t, env);
            Load(out.tasks, h) < Weight(t, h) && |out.tasks| <= 1 && |out.made| <= 1
  {
    hide LookUp, WireWeight;
    LookUpLoad(r, o, t, env, h);
    LoadOne(Admit(r.id, t.next, t.wire, t.back, t.isReport, t.token, r.inFlight), h);
  }

  lemma AdmitLoad(r: Router, o: Options, t: Task, env: Env, h: nat)
    requires ValidOptions(o) && o.maxHops <= h && t.Admit?
    ensures var out := RunAdmit(r, o, t, env);
            Load(out.tasks, h) < Weight(t, h) && |out.tasks| <= 1 && |out.made| <= 1
  {
    hide LookUp, Report, WireWeight;
    LookUpLoad(r, o, t, env, h);
    ReportLoad(r.(inFlight := r.inFlight - 1), o, t.back, QueueOverflow, env, h);
  }

  lemma CallbackLoad(r: Router, o: Options, t: Task, env: Env, h: nat)
    requires ValidOptions(o) && o.maxHops <= h && t.Callback?
    ensures var out := RunCallback(r, o, t, env);
            Load(out.tasks, h) < Weight(t, h) && |out.tasks| <= 1 && |out.made| <= 1
  {
    hide Report;
    var r1 := if t.isReport then r else r.(inFlight := r.inFlight - 1);
    ReportLoad(r1, o, t.back, QueueOverflow, env, h);
    ReportLoad(r1, o, t.back, Unroutable, env, h);
  }

  /** Every task, whatever the router's state and the link's answer, posts work that weighs less than it did. */
  lemma TaskShrinks(r: Router, o: Options, t: Task, env: Env, error: Option<Errc>, h: nat)
    requires ValidOptions(o) && o.maxHops <= h
    ensures var out := Execute(r, o, t, env, error);
            Load(out.tasks, h) < Weight(t, h) && |out.tasks| <= 2 && |out.made| <= 1
  {
    hide RunSend, Receive, RunHandoff, RunAdmit, RunCallback, RunNotify;
    match t
    case Send(at, m, token) =>
      SendLoad(r, o, m, token, env, h);
    case Arrive(_, wire) => ReceiveLoad(r, o, wire, env, h);
    case Handoff(_, _, _, _, _, _) => HandoffLoad(r, o, t, env, h);
    case Admit(_, _, _, _, _, _, _) => AdmitLoad(r, o, t, env, h);
    case Notify(_, _, _, _, _, _) => NotifyLoad(r, t, error, h);
    case Callback(_, _, _, _, _) => CallbackLoad(r, o, t, env, h);
  }

  /** The total weight of outstanding work. */
  function MeshLoad(s: Mesh, h: nat): nat { Load(s.pool, h) }

  lemma StepLoad(s: Mesh, step: Step, cfg: Config, h: nat)
    requires Configured(cfg) && Enabled(s, step) && !step.Ask?
    requires forall id :: cfg(id).maxHops <= h
    ensures step.Run? || step.Drop? ==> MeshLoad(Next(s, step, cfg), h) < MeshLoad(s, h)
    ensures !step.Run? && !step.Drop? ==> MeshLoad(Next(s, step, cfg), h) == MeshLoad(s, h)
  {
    hide Execute, Weight;
    match step
    case Run(i, env, error) =>
      var t := s.pool[i];
      var out := Outcome(s, i, env, error, cfg);
      TaskShrinks(s.routers[t.at], cfg(t.at), t, env, error, h);
      TotalRemove(s.pool, i, Weigher(h));
      TotalConcat(RemoveAt(s.pool, i), out.tasks, Weigher(h));
    case Drop(i) =>
      TotalRemove(s.pool, i, Weigher(h));
      ArriveWeighs(s.pool[i], h);
    case _ =>
  }

  lemma ArriveWeighs(t: Task, h: nat)
    ensures Weight(t, h) >= 1
  {}

  /** Units of work done in a run: tasks executed and wires lost. */
  function Work(steps: seq<Step>): nat {
    if steps == [] then 0
    else Work(steps[..|steps| - 1]) + if steps[|steps| - 1].Run? || steps[|steps| - 1].Drop? then 1 else 0
  }

  /**
   * Quiescence. From any state of any mesh, with links coming and going and
   * routers stopping as they please, if nobody sends anything new then the work
   * that can still happen is bounded by the weight of what is outstanding, and
   * so is the number of envelopes that can still be created.
   */
  lemma {:induction false} Quiescence(states: seq<Mesh>, steps: seq<Step>, cfg: Config, h: nat, k: nat)
    requires Configured(cfg) && IsRun(states, steps, cfg) && k < |states|
    requires forall id :: cfg(id).maxHops <= h
    requires forall i :: 0 <= i < |steps| ==> !steps[i].Ask?
    ensures Work(steps[..k]) + MeshLoad(states[k], h) <= MeshLoad(states[0], h)
    ensures |states[k].made| - |states[0].made| <= Work(steps[..k])
  {
    hide Next, Enabled, MeshLoad;
    if k > 0 {
      Quiescence(states, steps, cfg, h, k - 1);
      assert steps[..k][..k - 1] == steps[..k - 1];
      assert IsStep(states[k - 1], steps[k - 1], states[k], cfg);
      StepLoad(states[k - 1], steps[k - 1], cfg, h);
      MakesAtMostOne(states[k - 1], steps[k - 1], cfg, h);
    }
  }

  lemma MakesAtMostOne(s: Mesh, step: Step, cfg: Config, h: nat)
    requires Configured(cfg) && Enabled(s, step) && forall id :: cfg(id).maxHops <= h
    ensures |Next(s, step, cfg).made| <= |s.made| + if step.Run? then 1 else 0
  {
    hide Execute;
    if step.Run? {
      var t := s.pool[step.i];
      TaskShrinks(s.routers[t.at], cfg(t.at), t, step.env, step.error, h);
    }
  }

  /** An error envelope never leads to another envelope, at any router in any state. */
  lemma ErrorsAreSilent(r: Router, o: Options, wire: Bytes, env: Env)
    requires ValidOptions(o) && DecodeEnvelope(wire, o.limits).Ok? && DecodeEnvelope(wire, o.limits).e.kind.Error?
    ensures var out := Receive(r, o, wire, env);
            && out.made == [] && out.delivered == []
            && forall i :: 0 <= i < |out.tasks| ==> out.tasks[i].Handoff? && out.tasks[i].back.silent
  {
    hide DecodeEnvelope, EncodeEnvelope, Unseal, InTolerance, NonceStep, Touch, Remembered;
    EncodeDecode(wire, o.limits);
  }

  /** Work handed off with a silent return path never produces a report, whatever happens to it. */
  lemma SilentStaysSilent(r: Router, o: Options, t: Task, env: Env, error: Option<Errc>)
    requires ValidOptions(o) && !t.Send? && !t.Arrive? && t.back.silent
    ensures var out := Execute(r, o, t, env, error);
            && out.made == []
            && forall i :: 0 <= i < |out.tasks| ==>
                 out.tasks[i] == Arrive(out.tasks[i].at, t.wire) || (!out.tasks[i].Arrive? && !out.tasks[i].Send? && out.tasks[i].back == t.back)
  {}
}
