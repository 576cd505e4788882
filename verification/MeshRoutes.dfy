/** Source routes over all runs of a mesh: where every envelope in flight stands, and how it got there. */
module MeshRoutes {
  import opened ByteCodec
  import opened Seqs
  import opened EnvelopeCodec
  import opened Lru
  import opened ReplayGuard
  import opened Router
  import opened Mesh
  import opened MeshAccounting

  /** The envelope after `p` relays. */
  function At(f: Envelope, p: nat): Envelope
    requires p <= |f.route| <= 255 && p <= f.ttl
  {
    f.(ttl := f.ttl - p, routePos := p)
  }

  /** An envelope as its author puts it on the wire: no hop consumed, and a route that repeats nobody. */
  ghost predicate Fresh(f: Envelope) {
    && WellFormed(f) && f.routePos == 0
    && f.source !in f.route && f.destination !in f.route && Distinct(f.route)
  }

  /** Who hands the envelope off after `p` relays. */
  function Holder(f: Envelope, p: nat): Id
    requires p <= |f.route|
  {
    if p == 0 then f.source else f.route[p - 1]
  }

  /** The return path that node reports a failed handoff to. */
  function BackAt(f: Envelope, p: nat): Back
    requires p <= |f.route|
  {
    if p == 0 then Back(f.source, [], f.messageId, true)
    else Back(f.source, ReturnRoute(f.route, p - 1), f.messageId, f.kind.Error?)
  }

  /** The task belongs to `f` after `p` relays, and is where the route says. */
  ghost predicate Leg(t: Task, f: Envelope, p: nat) {
    && Fresh(f) && p <= |f.route| && p <= f.ttl && !t.Send?
    && (t.Arrive? ==> t.at == Target(f, p))
    && (!t.Arrive? ==> t.at == Holder(f, p) && t.back == BackAt(f, p))
    && (!t.Callback? ==> t.wire == WireOf(At(f, p)))
    && (!t.Callback? && !t.Arrive? ==> t.next == Target(f, p))
  }

  /** `g` answers `f` from the node `f` had reached after `q` relays, back along the hops consumed. */
  ghost predicate Answers(g: Envelope, f: Envelope, q: nat) {
    && q <= |f.route| && g.source == Target(f, q) && g.destination == f.source && g.route == Reverse(f.route[..q])
    && (|| (g.kind.Error? && !f.kind.Error? && |g.payload| == 9 && g.payload[1..] == PutBE(f.messageId, 8))
        || (g.kind.Ack? && f.kind.Probe? && q == |f.route| && |g.payload| >= 8 && g.payload[..8] == PutBE(f.messageId, 8)))
  }

  /** `e` is the caller's message `m`, completed. */
  ghost predicate Stems(e: Envelope, m: Envelope) {
    && e.version == m.version && e.kind == m.kind && e.encrypted == m.encrypted && e.keyId == m.keyId
    && e.destination == m.destination && e.route == m.route
    && (m.ttl != 0 ==> e.ttl == m.ttl) && (m.nonce != 0 ==> e.nonce == m.nonce)
    && (m.timestamp != 0 ==> e.timestamp == m.timestamp) && (m.messageId != 0 ==> e.messageId == m.messageId)
    && (!m.encrypted ==> e.payload == m.payload)
  }

  // ---------------------------------------------------------------- what a task of a known leg posts

  /** The outcome of a report or an ack about `f` after `q` relays. */
  ghost predicate AnswerOut(tasks: seq<Task>, made: seq<Envelope>, f: Envelope, q: nat) {
    && |tasks| == |made| <= 1
    && (made != [] ==> Answers(made[0], f, q) && Fresh(made[0]) && Leg(tasks[0], made[0], 0))
  }

  lemma ReverseFresh(f: Envelope, q: nat)
    requires Fresh(f) && q <= |f.route|
    ensures var back := Reverse(f.route[..q]);
            Distinct(back) && Target(f, q) !in back && f.source !in back
  {
    var back := Reverse(f.route[..q]);
    forall x | x in back ensures x in f.route[..q] {
      var i :| 0 <= i < q && back[i] == x;
      assert back[i] == f.route[..q][q - 1 - i];
    }
    forall i, j | 0 <= i < j < q ensures back[i] != back[j] {
      assert back[i] == f.route[q - 1 - i] && back[j] == f.route[q - 1 - j];
    }
  }

  lemma EmitLegs(r: Router, g: Envelope, f: Envelope, q: nat)
    requires Fresh(f) && q <= |f.route| && r.id == Target(f, q) && g.routePos == 0 && Answers(g, f, q)
    ensures AnswerOut(Emit(r, g).0, Emit(r, g).1, f, q)
  {
    hide EncodeHeader;
    ReverseFresh(f, q);
    if EncodeEnvelope(g).Wire? {
      assert At(g, 0) == g;
    }
  }

  lemma ReportLegs(r: Router, o: Options, f: Envelope, q: nat, code: Code, env: Env)
    requires Fresh(f) && q <= |f.route| && r.id == Target(f, q)
    ensures var back := Back(f.source, ReturnRoute(f.route, q), f.messageId, f.kind.Error?);
            AnswerOut(Report(r, o, back, code, env).0, Report(r, o, back, code, env).1, f, q)
  {
    hide Emit, Fresh;
    var back := Back(f.source, ReturnRoute(f.route, q), f.messageId, f.kind.Error?);
    if !back.silent {
      EmitLegs(r, ReportEnvelope(r, o, back, code, env), f, q);
    }
  }

  /** A failed handoff of leg `p`: silent at the author, otherwise reported from the relay. */
  lemma FailLegs(r: Router, o: Options, f: Envelope, p: nat, code: Code, env: Env)
    requires Fresh(f) && p <= |f.route| && r.id == Holder(f, p)
    ensures var (tasks, made) := Report(r, o, BackAt(f, p), code, env);
            if p == 0 then tasks == [] && made == [] else AnswerOut(tasks, made, f, p - 1)
  {
    hide Emit, Fresh;
    if p > 0 { ReportLegs(r, o, f, p - 1, code, env); }
  }

  lemma AcceptLegs(r: Router, o: Options, f: Envelope, env: Env)
    requires Fresh(f) && |f.route| <= f.ttl && r.id == f.destination
    ensures var out := Accept(r, o, At(f, |f.route|), env); AnswerOut(out.tasks, out.made, f, |f.route|)
  {
    var e := At(f, |f.route|);
    hide Emit, Report, Unseal, Fresh;
    ReportLegs(r, o, f, |f.route|, DecryptFailed, env);
    match Unseal(r, e, env)
    case None =>
    case Some(payload) =>
      if e.kind.Probe? { EmitLegs(r, AckEnvelope(r, o, e.(payload := payload), env), f, |f.route|); }
  }

  lemma DeliverLegs(r: Router, o: Options, f: Envelope, env: Env)
    requires ValidOptions(o) && Fresh(f) && |f.route| <= f.ttl && r.id == f.destination
    ensures var out := Deliver(r, o, At(f, |f.route|), env); AnswerOut(out.tasks, out.made, f, |f.route|)
  {
    var e := At(f, |f.route|);
    hide Report, Accept, InTolerance, NonceStep, Touch, Remembered, Has, Fresh, AnswerOut;
    var r1 := r.(nonces := NonceStep(r.nonces, e.source, e.nonce, o.caps));
    var r2 := if o.dedup then r1.(seen := Touch(r1.seen, e.messageId, 0, 0, o.seenCapacity)) else r1;
    ReportLegs(r, o, f, |f.route|, ReplayRejected, env);
    ReportLegs(r1, o, f, |f.route|, ReplayRejected, env);
    AcceptLegs(r2, o, f, env);
    assert AnswerOut([], [], f, |f.route|) by { NoAnswer(f, |f.route|); }
  }

  lemma NoAnswer(f: Envelope, q: nat)
    ensures AnswerOut([], [], f, q)
  {}

  lemma ForwardLegs(r: Router, o: Options, f: Envelope, p: nat, env: Env)
    requires ValidOptions(o) && Fresh(f) && p < |f.route| && p <= f.ttl && r.id == f.route[p]
    ensures var out := Forward(r, o, At(f, p), env);
            || AnswerOut(out.tasks, out.made, f, p)
            || (out.made == [] && |out.tasks| == 1 && Leg(out.tasks[0], f, p + 1))
  {
    hide Report, Touch, Has, EncodeHeader, AnswerOut;
    var e := At(f, p);
    var r1 := r.(seen := Touch(r.seen, e.messageId, 0, 0, o.seenCapacity));
    ReportLegs(r1, o, f, p, Unroutable, env);
    ReportLegs(r1, o, f, p, TtlExhausted, env);
    NoAnswer(f, p);
    if p < f.ttl { assert Advanced(e) == At(f, p + 1); }
  }

  /** What arrives is the author's envelope, at the node its route names next. */
  lemma ArrivalDecodes(f: Envelope, p: nat, limits: Limits)
    requires Fresh(f) && p <= |f.route| && p <= f.ttl
    ensures DecodeEnvelope(WireOf(At(f, p)), limits) in {Ok(At(f, p)), Malformed, UnknownVersion}
    ensures f.destination == Target(f, p) <==> p == |f.route|
  {
    hide DecodeEnvelope, EncodeHeader;
    DecodeWire(At(f, p), limits);
  }

  lemma ArriveLegs(r: Router, o: Options, f: Envelope, p: nat, env: Env)
    requires ValidOptions(o) && Fresh(f) && p <= |f.route| && p <= f.ttl && r.id == Target(f, p)
    ensures var out := Receive(r, o, WireOf(At(f, p)), env);
            || AnswerOut(out.tasks, out.made, f, p)
            || (p < |f.route| && out.made == [] && |out.tasks| == 1 && Leg(out.tasks[0], f, p + 1))
  {
    hide DecodeEnvelope, WireOf, Deliver, Forward, Fresh, Leg, AnswerOut;
    ArrivalDecodes(f, p, o.limits);
    NoAnswer(f, p);
    if p == |f.route| {
      DeliverLegs(r, o, f, env);
    } else {
      ForwardLegs(r, o, f, p, env);
    }
  }

  /** Every task of leg `p` posts tasks of the same leg, of the next one, or an answer. */
  ghost predicate Continues(x: Task, out: Out, f: Envelope, p: nat) {
    || (out.made == [] && forall i :: 0 <= i < |out.tasks| ==> Leg(out.tasks[i], f, p))
    || (x.Arrive? && p < |f.route| && out.made == [] && |out.tasks| == 1 && Leg(out.tasks[0], f, p + 1))
    || (exists q :: AnswerOut(out.tasks, out.made, f, q))
  }

  lemma ExecuteLegs(r: Router, o: Options, x: Task, env: Env, error: Option<Errc>, f: Envelope, p: nat)
    requires ValidOptions(o) && r.id == x.at && Leg(x, f, p)
    ensures Continues(x, Execute(r, o, x, env, error), f, p)
  {
    hide Receive, Report, AnswerOut, Fresh, WireOf;
    if x.Arrive? {
      ArriveLegs(r, o, f, p, env);
    } else {
      var r1 := r.(inFlight := r.inFlight - 1);
      FailLegs(r, o, f, p, Unroutable, env);
      FailLegs(r1, o, f, p, Unroutable, env);
      FailLegs(r, o, f, p, QueueOverflow, env);
      FailLegs(r1, o, f, p, QueueOverflow, env);
    }
  }

  lemma SendLegs(r: Router, o: Options, x: Task, env: Env, error: Option<Errc>)
    requires ValidOptions(o) && ValidId(r.id) && x.Send?
    ensures var out := Execute(r, o, x, env, error);
            && |out.tasks| == |out.made| <= 1
            && (out.made != [] ==> Fresh(out.made[0]) && Stems(out.made[0], x.m) && Leg(out.tasks[0], out.made[0], 0))
  {
    hide EncodeHeader, Aad;
    var out := RunSend(r, o, x.m, x.token, env);
    if out.made != [] {
      var e := out.made[0];
      assert At(e, 0) == e;
      assert forall i :: 0 <= i < |e.route| ==> ValidId(e.route[i]);
    }
  }

  // ---------------------------------------------------------------- over all runs

  /** The step in which the `i`th hop of `f`'s route takes it in. */
  ghost predicate Relays(s: Mesh, step: Step, f: Envelope, i: nat) {
    && step.Run? && step.i < |s.pool| && i < |f.route| <= 255 && i <= f.ttl
    && s.pool[step.i] == Arrive(f.route[i], WireOf(At(f, i)))
  }

  /** Steps before `k` in which the hops of `f`'s route took it in, one after the other. */
  ghost predicate Trail(states: seq<Mesh>, steps: seq<Step>, k: nat, f: Envelope, trail: seq<nat>) {
    && k <= |steps| && |states| == |steps| + 1
    && (forall i :: 0 <= i < |trail| ==> trail[i] < k && Relays(states[trail[i]], steps[trail[i]], f, i))
    && (forall i, j :: 0 <= i < j < |trail| ==> trail[i] < trail[j])
  }

  /** A task of an envelope on its way, with the steps in which each hop so far relayed it. */
  ghost predicate Tracked(states: seq<Mesh>, steps: seq<Step>, k: nat, t: Task) {
    && k < |states|
    && exists f: Envelope, trail: seq<nat> ::
         f in states[k].made && Leg(t, f, |trail|) && Trail(states, steps, k, f, trail)
  }

  /** Every envelope ever put on a wire was asked for, or answers an earlier one. */
  ghost predicate Originated(s: Mesh, j: nat)
    requires j < |s.made|
  {
    || (exists k :: 0 <= k < |s.asked| && Stems(s.made[j], s.asked[k]))
    || (exists i, q: nat :: 0 <= i < j && Answers(s.made[j], s.made[i], q))
  }

  ghost predicate MadeRight(s: Mesh) {
    forall j :: 0 <= j < |s.made| ==> Fresh(s.made[j]) && Originated(s, j)
  }

  lemma TrailGrows(states: seq<Mesh>, steps: seq<Step>, cfg: Config, k: nat, t: Task)
    requires Configured(cfg) && IsRun(states, steps, cfg) && k < |steps| && Tracked(states, steps, k, t)
    requires states[k].made <= states[k + 1].made
    ensures Tracked(states, steps, k + 1, t)
  {
    hide Leg, Relays, IsStep;
    var f, trail :| f in states[k].made && Leg(t, f, |trail|) && Trail(states, steps, k, f, trail);
    assert Trail(states, steps, k + 1, f, trail);
  }

  lemma TrailExtends(states: seq<Mesh>, steps: seq<Step>, k: nat, f: Envelope, trail: seq<nat>)
    requires Trail(states, steps, k, f, trail) && k < |steps| && Relays(states[k], steps[k], f, |trail|)
    ensures Trail(states, steps, k + 1, f, trail + [k])
  {
    hide Relays;
    forall i | 0 <= i < |trail| + 1
      ensures var tr := trail + [k]; tr[i] < k + 1 && Relays(states[tr[i]], steps[tr[i]], f, i)
    {}
  }

  /** The tasks one step posts are tracked if the task it executed was. */
  lemma PostedTracked(states: seq<Mesh>, steps: seq<Step>, cfg: Config, k: nat, y: Task)
    requires Configured(cfg) && IsRun(states, steps, cfg) && k < |steps| && steps[k].Run? && Enabled(states[k], steps[k])
    requires Inv(states[k])
    requires var x := states[k].pool[steps[k].i]; x.Send? || Tracked(states, steps, k, x)
    requires y in Outcome(states[k], steps[k].i, steps[k].env, steps[k].error, cfg).tasks
    ensures Tracked(states, steps, k + 1, y)
  {
    hide Execute, Leg, Relays, WireOf, Answers, Fresh, Stems, TokensRight, CountersRight;
    var s, step := states[k], steps[k];
    assert IsStep(s, step, states[k + 1], cfg);
    var x := s.pool[step.i];
    var out := Outcome(s, step.i, step.env, step.error, cfg);
    assert states[k + 1].made == s.made + out.made;
    if x.Send? {
      SendLegs(s.routers[x.at], cfg(x.at), x, step.env, step.error);
      assert out.tasks[0] == y;
      NewTracked(states, steps, k, y, out.made[0]);
    } else {
      var f, trail :| f in s.made && Leg(x, f, |trail|) && Trail(states, steps, k, f, trail);
      ExecuteLegs(s.routers[x.at], cfg(x.at), x, step.env, step.error, f, |trail|);
      if out.made == [] && Leg(y, f, |trail|) {
        assert Trail(states, steps, k + 1, f, trail);
      } else if x.Arrive? && |trail| < |f.route| && Leg(y, f, |trail| + 1) {
        assert Relays(s, step, f, |trail|) by { LegRelays(s, step, f, |trail|); }
        TrailExtends(states, steps, k, f, trail);
        assert |trail + [k]| == |trail| + 1;
      } else {
        NewTracked(states, steps, k, y, out.made[0]);
      }
    }
  }

  lemma LegRelays(s: Mesh, step: Step, f: Envelope, p: nat)
    requires step.Run? && step.i < |s.pool| && s.pool[step.i].Arrive? && Leg(s.pool[step.i], f, p) && p < |f.route|
    ensures Relays(s, step, f, p)
  {
    hide WireOf;
  }

  lemma NewTracked(states: seq<Mesh>, steps: seq<Step>, k: nat, y: Task, g: Envelope)
    requires k < |steps| && |states| == |steps| + 1 && g in states[k + 1].made && Leg(y, g, 0)
    ensures Tracked(states, steps, k + 1, y)
  {
    hide Leg, Relays;
    var none: seq<nat> := [];
    assert Leg(y, g, |none|) && Trail(states, steps, k + 1, g, none);
  }

  ghost predicate AllTracked(states: seq<Mesh>, steps: seq<Step>, k: nat)
    requires k < |states|
  {
    forall i :: 0 <= i < |states[k].pool| && !states[k].pool[i].Send? ==> Tracked(states, steps, k, states[k].pool[i])
  }

  lemma StepTracked(states: seq<Mesh>, steps: seq<Step>, cfg: Config, k: nat)
    requires Configured(cfg) && IsRun(states, steps, cfg) && k < |steps|
    requires Inv(states[k]) && AllTracked(states, steps, k)
    ensures AllTracked(states, steps, k + 1)
  {
    hide Execute, Inv, Tracked;
    var s, t, step := states[k], states[k + 1], steps[k];
    assert IsStep(s, step, t, cfg);
    forall i | 0 <= i < |t.pool| && !t.pool[i].Send? ensures Tracked(states, steps, k + 1, t.pool[i]) {
      var y := t.pool[i];
      if step.Run? && i >= |s.pool| - 1 {
        assert y == Outcome(s, step.i, step.env, step.error, cfg).tasks[i - (|s.pool| - 1)];
        PostedTracked(states, steps, cfg, k, y);
      } else {
        assert y == s.pool[if (step.Run? || step.Drop?) && i >= step.i then i + 1 else i];
        TrailGrows(states, steps, cfg, k, y);
      }
    }
  }

  lemma OriginGrows(s: Mesh, t: Mesh, j: nat)
    requires s.asked <= t.asked && s.made <= t.made && j < |s.made| && Originated(s, j)
    ensures Originated(t, j)
  {
    hide Stems, Answers;
    if k :| 0 <= k < |s.asked| && Stems(s.made[j], s.asked[k]) {
      assert Stems(t.made[j], t.asked[k]);
    } else {
      var i, q: nat :| 0 <= i < j && Answers(s.made[j], s.made[i], q);
      assert Answers(t.made[j], t.made[i], q);
    }
  }

  /** A new envelope is the caller's message or an answer to the one just handled. */
  lemma NewOrigin(states: seq<Mesh>, steps: seq<Step>, cfg: Config, k: nat)
    requires Configured(cfg) && IsRun(states, steps, cfg) && k < |steps| && steps[k].Run?
    requires Inv(states[k]) && LossRight(states[k]) && AllTracked(states, steps, k)
    requires states[k + 1].made != states[k].made
    ensures |states[k + 1].made| == |states[k].made| + 1
    ensures Fresh(states[k + 1].made[|states[k].made|]) && Originated(states[k + 1], |states[k].made|)
  {
    hide Execute, Leg, Relays, WireOf, Answers, Fresh, Stems, TokensRight, CountersRight, Trail;
    var s, t, step := states[k], states[k + 1], steps[k];
    assert IsStep(s, step, t, cfg);
    var x := s.pool[step.i];
    var out := Outcome(s, step.i, step.env, step.error, cfg);
    assert t.made == s.made + out.made;
    if x.Send? {
      SendLegs(s.routers[x.at], cfg(x.at), x, step.env, step.error);
      assert t.made[|s.made|] == out.made[0];
      assert Stems(t.made[|s.made|], t.asked[x.token.value]);
    } else {
      var f, trail :| f in s.made && Leg(x, f, |trail|) && Trail(states, steps, k, f, trail);
      ExecuteLegs(s.routers[x.at], cfg(x.at), x, step.env, step.error, f, |trail|);
      var q: nat :| AnswerOut(out.tasks, out.made, f, q);
      var i :| 0 <= i < |s.made| && s.made[i] == f;
      assert t.made[|s.made|] == out.made[0];
      assert Answers(t.made[|s.made|], t.made[i], q);
    }
  }

  lemma StepOrigin(states: seq<Mesh>, steps: seq<Step>, cfg: Config, k: nat)
    requires Configured(cfg) && IsRun(states, steps, cfg) && k < |steps|
    requires Inv(states[k]) && LossRight(states[k]) && AllTracked(states, steps, k) && MadeRight(states[k])
    ensures MadeRight(states[k + 1])
  {
    hide Execute, Inv, Tracked, LossRight, Originated, Fresh;
    var s, t := states[k], states[k + 1];
    assert IsStep(s, steps[k], t, cfg);
    assert s.made <= t.made && s.asked <= t.asked;
    forall j | 0 <= j < |t.made| ensures Fresh(t.made[j]) && Originated(t, j) {
      if j < |s.made| {
        OriginGrows(s, t, j);
      } else {
        NewOrigin(states, steps, cfg, k);
      }
    }
  }

  /**
   * Source routing, over every run. At every moment, whatever is in flight is
   * an envelope its author made, unchanged but for ttl and route_pos, which
   * together still spend the author's hop budget; it is headed to the next name
   * on its route, or to the destination once the route is consumed; the hops it
   * consumed relayed it in route order; and the return path handed on with it
   * is the reverse of exactly those hops. Every envelope was asked for by a
   * caller or answers an earlier one along the reverse of the hops that one
   * had consumed.
   */
  lemma {:induction false} OnCourse(states: seq<Mesh>, steps: seq<Step>, cfg: Config, k: nat)
    requires Configured(cfg) && IsRun(states, steps, cfg) && Start(states[0]) && k < |states|
    ensures AllTracked(states, steps, k) && MadeRight(states[k])
  {
    hide AllTracked, MadeRight, IsStep, Inv, LossRight, Start;
    if k == 0 {
      StartOnCourse(states, steps);
    } else {
      OnCourse(states, steps, cfg, k - 1);
      RunInv(states, steps, cfg, k - 1);
      RunLoss(states, steps, cfg, k - 1);
      StepTracked(states, steps, cfg, k - 1);
      StepOrigin(states, steps, cfg, k - 1);
    }
  }

  lemma StartOnCourse(states: seq<Mesh>, steps: seq<Step>)
    requires |states| > 0 && Start(states[0])
    ensures AllTracked(states, steps, 0) && MadeRight(states[0])
  {}

  /** No run ever brings an envelope to a node off its path, and none is delivered before its route is consumed. */
  lemma NeverOffPath(states: seq<Mesh>, steps: seq<Step>, cfg: Config, k: nat, i: nat, limits: Limits)
    requires Configured(cfg) && IsRun(states, steps, cfg) && Start(states[0]) && k < |states|
    requires i < |states[k].pool| && states[k].pool[i].Arrive? && DecodeEnvelope(states[k].pool[i].wire, limits).Ok?
    ensures var at, e := states[k].pool[i].at, DecodeEnvelope(states[k].pool[i].wire, limits).e;
            && e.routePos <= |e.route|
            && (e.routePos < |e.route| ==> e.route[e.routePos] == at && e.destination != at)
            && (e.routePos == |e.route| ==> e.destination == at)
  {
    hide DecodeEnvelope, WireOf, Trail;
    OnCourse(states, steps, cfg, k);
    var x := states[k].pool[i];
    assert Tracked(states, steps, k, x);
    var f, trail :| f in states[k].made && Leg(x, f, |trail|) && Trail(states, steps, k, f, trail);
    ArrivalDecodes(f, |trail|, limits);
  }

  /** Answers are never answered twice over: an error ends the chain, an ack can only lead to an error. */
  lemma AnswersEnd(h: Envelope, g: Envelope, f: Envelope, q: nat, q': nat)
    requires Answers(g, f, q) && Answers(h, g, q')
    ensures g.kind.Ack? && f.kind.Probe? && h.kind.Error?
  {}
}
