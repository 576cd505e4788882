/** What every completion of a send is told, over all runs of a mesh. */
module MeshCompletions {
  import opened ByteCodec
  import opened Seqs
  import opened EnvelopeCodec
  import opened Router
  import opened RouterLaws
  import opened Mesh
  import opened MeshAccounting

  // ---------------------------------------------------------------- why a send is refused

  predicate Addressed(o: Options, m: Envelope) { 0 < |m.destination| <= o.limits.maxNodeIdBytes }

  /** Not too many hops, each a name of fitting length, none repeated, none of them this node or the destination. */
  ghost predicate GoodRoute(r: Router, o: Options, m: Envelope) {
    && |m.route| <= o.limits.maxRouteHops && Distinct(m.route) && r.id !in m.route && m.destination !in m.route
    && forall i :: 0 <= i < |m.route| ==> 0 < |m.route[i]| <= o.limits.maxNodeIdBytes
  }

  /** The message, filled in and sealed as asked. */
  ghost predicate Outgoing(e: Envelope, r: Router, o: Options, m: Envelope, env: Env) {
    FilledIn(e, r, o, m, env) && Carries(e, r, m, env)
  }

  /** A send is refused with this error. */
  ghost predicate SendFails(r: Router, o: Options, m: Envelope, env: Env, error: Errc) {
    var small, fine := |m.payload| <= o.limits.maxEnvelopeBytes, GoodRoute(r, o, m);
    match error
    case OperationCanceled => r.stopped
    case InvalidArgument => !r.stopped && (!Addressed(o, m) || (small && !fine))
    case MessageSize =>
      && !r.stopped && Addressed(o, m)
      && (!small || (fine && exists e :: Outgoing(e, r, o, m, env) && (m.encrypted || Encodable(e)) && |WireOf(e)| > o.limits.maxEnvelopeBytes))
    case NotSupported => !r.stopped && Addressed(o, m) && small && fine && m.encrypted && m.keyId !in r.keys
    case ProtocolError =>
      && !r.stopped && Addressed(o, m) && small && fine && m.encrypted && m.keyId in r.keys
      && !exists e :: Outgoing(e, r, o, m, env)
    case _ => false
  }

  lemma GoodIsValid(r: Router, o: Options, m: Envelope)
    ensures GoodRoute(r, o, m) <==> |m.route| <= o.limits.maxRouteHops && ValidHops(r, o, m)
  {}

  lemma RefusalExact(r: Router, o: Options, m: Envelope)
    ensures Refusal(r, o, m) ==
      if r.stopped then Some(OperationCanceled)
      else if !Addressed(o, m) then Some(Errc.InvalidArgument)
      else if |m.payload| > o.limits.maxEnvelopeBytes then Some(MessageSize)
      else if !GoodRoute(r, o, m) then Some(Errc.InvalidArgument)
      else None
  {
    GoodIsValid(r, o, m);
    hide ValidHops, GoodRoute;
  }

  /** Preparing succeeds with exactly the outgoing envelope. */
  lemma PrepareExact(r: Router, o: Options, m: Envelope, env: Env)
    ensures Prepare(r, o, m, env).Ready? ==> forall e :: Outgoing(e, r, o, m, env) <==> e == Prepare(r, o, m, env).e
    ensures Prepare(r, o, m, env).Refused? ==> !exists e :: Outgoing(e, r, o, m, env)
    ensures Prepare(r, o, m, env).Refused? <==>
              m.encrypted && (m.keyId !in r.keys || !exists e :: Outgoing(e, r, o, m, env))
    ensures Prepare(r, o, m, env).Refused? ==> Prepare(r, o, m, env).error == if m.keyId !in r.keys then NotSupported else ProtocolError
    ensures Prepare(r, o, m, env).Ready? ==> Prepare(r, o, m, env).e.encrypted == m.encrypted
  {
    hide PutBE, EncodeHeader;
    var e0 := SendFresh(r, o, m, env);
    HeaderIgnoresPayload(e0.(ttl := 0, routePos := 0), |m.payload| + 16);
    forall e | FilledIn(e, r, o, m, env)
      ensures e == e0.(payload := e.payload)
      ensures Aad(e0, |m.payload| + 16) == EncodeHeader(e.(ttl := 0, routePos := 0), |m.payload| + 16)
    {
      HeaderIgnoresPayload(e.(ttl := 0, routePos := 0), |m.payload| + 16);
    }
    if Prepare(r, o, m, env).Ready? { assert Outgoing(Prepare(r, o, m, env).e, r, o, m, env); }
  }

  /** A completion that a send ends at once is told the refusal it met, and there is one exactly then. */
  lemma SendEnds(r: Router, o: Options, m: Envelope, token: Option<nat>, env: Env, k: nat, error: Option<Errc>)
    ensures Ended(k, error) in RunSend(r, o, m, token, env).ended <==>
              token == Some(k) && error.Some? && SendFails(r, o, m, env, error.value)
  {
    RefusalExact(r, o, m);
    PrepareExact(r, o, m, env);
    hide Refusal, Prepare, Outgoing, Encodable, WireOf, GoodRoute;
  }

  // ---------------------------------------------------------------- what decides a completion

  /** Running the task decides what completion `k` is told. */
  ghost predicate Decides(r: Router, o: Options, t: Task, env: Env, answer: Option<Errc>, k: nat, error: Option<Errc>) {
    && !t.Arrive? && t.token == Some(k)
    && match t
       case Send(_, m, _) => error.Some? && SendFails(r, o, m, env, error.value)
       case Handoff(_, next, _, _, isReport, _) =>
         || (r.stopped && error == Some(OperationCanceled))
         || (!r.stopped && isReport && next !in r.links && error == Some(HostUnreachable))
       case Admit(_, next, _, _, _, _, before) =>
         || (before >= o.maxInFlight && error == Some(NoBufferSpace))
         || (before < o.maxInFlight && next !in r.links && error == Some(HostUnreachable))
       case Notify(_, _, _, _, _, _) => error == answer       // the link's own answer
       case _ => false
  }

  lemma ArriveEnds(r: Router, o: Options, wire: Bytes, env: Env)
    requires ValidOptions(o)
    ensures Receive(r, o, wire, env).ended == [] && forall i :: 0 <= i < |Receive(r, o, wire, env).tasks| ==> Receive(r, o, wire, env).tasks[i].Handoff?
  {
    ReceivePlain(r, o, wire, env);
    hide Receive;
  }

  /** A task ends a completion if it decides it without the link, or brings the link's answer. */
  lemma ExecuteEnds(r: Router, o: Options, t: Task, env: Env, answer: Option<Errc>, k: nat, error: Option<Errc>)
    requires ValidOptions(o)
    ensures Ended(k, error) in Execute(r, o, t, env, answer).ended <==>
              || (t.Callback? && t.token == Some(k) && t.error == error)
              || (!t.Notify? && Decides(r, o, t, env, answer, k, error))
  {
    hide RunSend, Receive, Report, SendFails;
    if t.Send? { SendEnds(r, o, t.m, t.token, env, k, error); }
    if t.Arrive? { ArriveEnds(r, o, t.wire, env); }
  }

  /** Only a notify posts a callback, carrying the link's answer. */
  lemma ExecuteCallsBack(r: Router, o: Options, t: Task, env: Env, answer: Option<Errc>)
    requires ValidOptions(o)
    ensures var out := Execute(r, o, t, env, answer);
            && (forall i :: 0 <= i < |out.tasks| && out.tasks[i].Callback? ==>
                  t.Notify? && out.tasks[i].token == t.token && out.tasks[i].error == answer)
            && (t.Notify? ==> Callback(t.at, answer, t.back, t.isReport, t.token) in out.tasks)
  {
    hide RunSend, Receive, Report;
    if t.Send? { SendShape(r, o, t.m, t.token, env); }
    if t.Arrive? { ArriveEnds(r, o, t.wire, env); }
    forall q: Router, back, code ensures Plain(q, Report(q, o, back, code, env).0) { ReportPlain(q, o, back, code, env); }
  }

  // ---------------------------------------------------------------- over all runs

  ghost predicate DecidesAt(s: Mesh, step: Step, cfg: Config, k: nat, error: Option<Errc>) {
    && step.Run? && step.i < |s.pool| && s.pool[step.i].at in s.routers
    && Decides(s.routers[s.pool[step.i].at], cfg(s.pool[step.i].at), s.pool[step.i], step.env, step.error, k, error)
  }

  /** Some step before `n` decided this. */
  ghost predicate Decided(states: seq<Mesh>, steps: seq<Step>, cfg: Config, n: nat, k: nat, error: Option<Errc>)
    requires n <= |steps| && |states| == |steps| + 1
  {
    exists j :: 0 <= j < n && DecidesAt(states[j], steps[j], cfg, k, error)
  }

  /** The link's answer is on its way back to the completion. */
  ghost predicate Returning(s: Mesh, k: nat, error: Option<Errc>) {
    exists i :: 0 <= i < |s.pool| && s.pool[i].Callback? && s.pool[i].token == Some(k) && s.pool[i].error == error
  }

  lemma StepDecides(s: Mesh, step: Step, t: Mesh, cfg: Config, k: nat, error: Option<Errc>)
    requires Configured(cfg) && IsStep(s, step, t, cfg)
    ensures Ended(k, error) in t.ended ==> Ended(k, error) in s.ended || Returning(s, k, error) || DecidesAt(s, step, cfg, k, error)
    ensures Returning(t, k, error) ==> Returning(s, k, error) || DecidesAt(s, step, cfg, k, error)
    ensures Ended(k, error) in s.ended || Returning(s, k, error) || DecidesAt(s, step, cfg, k, error) ==>
              Ended(k, error) in t.ended || Returning(t, k, error)
  {
    hide Execute, Decides;
    if step.Run? {
      var x := s.pool[step.i];
      var r, o := s.routers[x.at], cfg(x.at);
      ExecuteEnds(r, o, x, step.env, step.error, k, error);
      ExecuteCallsBack(r, o, x, step.env, step.error);
      RunDecides(s, step, t, cfg, k, error);
    } else {
      OtherDecides(s, step, t, cfg, k, error);
    }
  }

  lemma OtherDecides(s: Mesh, step: Step, t: Mesh, cfg: Config, k: nat, error: Option<Errc>)
    requires Configured(cfg) && IsStep(s, step, t, cfg) && !step.Run?
    ensures t.ended == s.ended && (Returning(t, k, error) <==> Returning(s, k, error))
  {
    hide Returning;
    if step.Drop? {
      assert t.pool == RemoveAt(s.pool, step.i) + [];
      if Returning(s, k, error) { ReturningAfter(s.pool, step.i, [], t, s, k, error); }
      if Returning(t, k, error) { ReturningBefore(s.pool, step.i, [], t, s, k, error); }
    } else {
      StaysReturning(s, t, k, error);
    }
  }

  lemma StaysReturning(s: Mesh, t: Mesh, k: nat, error: Option<Errc>)
    requires s.pool <= t.pool && forall i :: |s.pool| <= i < |t.pool| ==> !t.pool[i].Callback?
    ensures Returning(t, k, error) <==> Returning(s, k, error)
  {
    if Returning(s, k, error) {
      var i :| 0 <= i < |s.pool| && s.pool[i].Callback? && s.pool[i].token == Some(k) && s.pool[i].error == error;
      assert t.pool[i] == s.pool[i];
    }
  }

  lemma RunDecides(s: Mesh, step: Step, t: Mesh, cfg: Config, k: nat, error: Option<Errc>)
    requires Configured(cfg) && IsStep(s, step, t, cfg) && step.Run?
    requires var x := s.pool[step.i];
             var out := Outcome(s, step.i, step.env, step.error, cfg);
             && (Ended(k, error) in out.ended <==>
                   || (x.Callback? && x.token == Some(k) && x.error == error)
                   || (!x.Notify? && DecidesAt(s, step, cfg, k, error)))
             && (forall i :: 0 <= i < |out.tasks| && out.tasks[i].Callback? ==>
                   x.Notify? && out.tasks[i].token == x.token && out.tasks[i].error == step.error)
             && (x.Notify? ==> Callback(x.at, step.error, x.back, x.isReport, x.token) in out.tasks)
    ensures Ended(k, error) in t.ended ==> Ended(k, error) in s.ended || Returning(s, k, error) || DecidesAt(s, step, cfg, k, error)
    ensures Returning(t, k, error) ==> Returning(s, k, error) || DecidesAt(s, step, cfg, k, error)
    ensures Ended(k, error) in s.ended || Returning(s, k, error) || DecidesAt(s, step, cfg, k, error) ==>
              Ended(k, error) in t.ended || Returning(t, k, error)
  {
    hide Execute, SendFails, Returning;
    var x, out := s.pool[step.i], Outcome(s, step.i, step.env, step.error, cfg);
    if Returning(t, k, error) {
      ReturningBefore(s.pool, step.i, out.tasks, t, s, k, error);
      if !Returning(s, k, error) {
        var j :| 0 <= j < |out.tasks| && out.tasks[j].Callback? && out.tasks[j].token == Some(k) && out.tasks[j].error == error;
        assert x.Notify? && x.token == Some(k) && step.error == error;
      }
    }
    if Returning(s, k, error) {
      ReturningAfter(s.pool, step.i, out.tasks, t, s, k, error);
    } else {
      NotReturning(s, step.i, k, error);
    }
    if DecidesAt(s, step, cfg, k, error) && x.Notify? {
      Posted(s.pool, step.i, out.tasks, t, Callback(x.at, step.error, x.back, x.isReport, x.token), k, error);
    }
  }

  /** A callback in the next pool was there before, or was just posted. */
  lemma ReturningBefore(pool: seq<Task>, i: nat, tasks: seq<Task>, t: Mesh, s: Mesh, k: nat, error: Option<Errc>)
    requires i < |pool| && t.pool == RemoveAt(pool, i) + tasks && s.pool == pool && Returning(t, k, error)
    ensures Returning(s, k, error) || exists j :: 0 <= j < |tasks| && tasks[j].Callback? && tasks[j].token == Some(k) && tasks[j].error == error
  {
    var kept := RemoveAt(pool, i);
    var j :| 0 <= j < |t.pool| && t.pool[j].Callback? && t.pool[j].token == Some(k) && t.pool[j].error == error;
    if j < |kept| {
      assert t.pool[j] == pool[if j < i then j else j + 1];
    } else {
      assert t.pool[j] == tasks[j - |kept|];
    }
  }

  /** A callback that was there is still there, or was the task run. */
  lemma ReturningAfter(pool: seq<Task>, i: nat, tasks: seq<Task>, t: Mesh, s: Mesh, k: nat, error: Option<Errc>)
    requires i < |pool| && t.pool == RemoveAt(pool, i) + tasks && s.pool == pool && Returning(s, k, error)
    ensures Returning(t, k, error) || (pool[i].Callback? && pool[i].token == Some(k) && pool[i].error == error)
  {
    var j :| 0 <= j < |pool| && pool[j].Callback? && pool[j].token == Some(k) && pool[j].error == error;
    if j != i { assert t.pool[if j < i then j else j - 1] == pool[j]; }
  }

  lemma NotReturning(s: Mesh, i: nat, k: nat, error: Option<Errc>)
    requires i < |s.pool| && !Returning(s, k, error)
    ensures !(s.pool[i].Callback? && s.pool[i].token == Some(k) && s.pool[i].error == error)
  {}

  lemma Posted(pool: seq<Task>, i: nat, tasks: seq<Task>, t: Mesh, c: Task, k: nat, error: Option<Errc>)
    requires i < |pool| && t.pool == RemoveAt(pool, i) + tasks && c in tasks && c.Callback? && c.token == Some(k) && c.error == error
    ensures Returning(t, k, error)
  {
    var j :| 0 <= j < |tasks| && tasks[j] == c;
    assert t.pool[|pool| - 1 + j] == c;
  }

  lemma {:induction false} RunDecided(states: seq<Mesh>, steps: seq<Step>, cfg: Config, n: nat, k: nat, error: Option<Errc>)
    requires Configured(cfg) && IsRun(states, steps, cfg) && Start(states[0]) && n < |states|
    ensures Decided(states, steps, cfg, n, k, error) <==> Ended(k, error) in states[n].ended || Returning(states[n], k, error)
  {
    hide DecidesAt, Returning, IsStep;
    if n == 0 {
      NothingReturns(states[0], k, error);
    } else {
      RunDecided(states, steps, cfg, n - 1, k, error);
      assert IsStep(states[n - 1], steps[n - 1], states[n], cfg);
      StepDecides(states[n - 1], steps[n - 1], states[n], cfg, k, error);
      if Decided(states, steps, cfg, n, k, error) {
        var j :| 0 <= j < n && DecidesAt(states[j], steps[j], cfg, k, error);
        if j < n - 1 { assert Decided(states, steps, cfg, n - 1, k, error); }
      }
      if Decided(states, steps, cfg, n - 1, k, error) {
        var j :| 0 <= j < n - 1 && DecidesAt(states[j], steps[j], cfg, k, error);
      }
    }
  }

  lemma NothingReturns(s: Mesh, k: nat, error: Option<Errc>)
    requires Start(s)
    ensures !Returning(s, k, error) && s.ended == []
  {}

  lemma HeldIfReturning(s: Mesh, k: nat, error: Option<Errc>)
    requires Returning(s, k, error)
    ensures Total(s.pool, Holds(k)) >= 1
  {
    hide Total;
    var i :| 0 <= i < |s.pool| && s.pool[i].Callback? && s.pool[i].token == Some(k) && s.pool[i].error == error;
    TotalRemove(s.pool, i, Holds(k));
  }

  lemma EndedCounts(s: Mesh, k: nat, error: Option<Errc>)
    requires Ended(k, error) in s.ended
    ensures Total(s.ended, EndedIs(k)) >= 1
  {
    hide Total;
    var i :| 0 <= i < |s.ended| && s.ended[i] == Ended(k, error);
    TotalRemove(s.ended, i, EndedIs(k));
  }

  /**
   * Over every run a completion has been told an outcome if and only if some
   * step decided exactly that outcome and no work for it is outstanding: success
   * or an error as its link answered, a missing neighbor, no room, a stopped
   * router, or the refusal of the send by name.
   */
  lemma ToldForCause(states: seq<Mesh>, steps: seq<Step>, cfg: Config, n: nat, k: nat, error: Option<Errc>)
    requires Configured(cfg) && IsRun(states, steps, cfg) && Start(states[0]) && n < |states|
    ensures Ended(k, error) in states[n].ended <==>
              Decided(states, steps, cfg, n, k, error) && Total(states[n].pool, Holds(k)) == 0
  {
    RunDecided(states, steps, cfg, n, k, error);
    RunInv(states, steps, cfg, n);
    var s := states[n];
    hide Decided, Returning, IsStep, Total;
    assert Total(s.pool, Holds(k)) + Total(s.ended, EndedIs(k)) + Total(s.lost, LostIs(k)) == TokenCount(s, k);
    if Returning(s, k, error) { HeldIfReturning(s, k, error); }
    if Ended(k, error) in s.ended { EndedCounts(s, k, error); }
  }

  /** In particular a caller is told of success only if a link took its message. */
  lemma SuccessIsReal(states: seq<Mesh>, steps: seq<Step>, cfg: Config, n: nat, k: nat) returns (j: nat)
    requires Configured(cfg) && IsRun(states, steps, cfg) && Start(states[0]) && n < |states| && Ended(k, None) in states[n].ended
    ensures j < n && steps[j].Run? && steps[j].i < |states[j].pool|
    ensures states[j].pool[steps[j].i].Notify? && states[j].pool[steps[j].i].token == Some(k) && steps[j].error == None
  {
    ToldForCause(states, steps, cfg, n, k, None);
    j :| 0 <= j < n && DecidesAt(states[j], steps[j], cfg, k, None);
  }
}
