/** The duplicate guards of every router over all runs of a mesh: what they have checked, and what gets past them twice. */
module MeshReplay {
  import opened ByteCodec
  import opened Seqs
  import opened EnvelopeCodec
  import opened Lru
  import opened ReplayGuard
  import opened Router
  import opened Mesh
  import opened MeshAccounting

  // ---------------------------------------------------------------- what one arrival checks

  /** The envelope a router takes in, if it takes the wire in at all. */
  function TakenIn(r: Router, o: Options, wire: Bytes): Option<Envelope> {
    if r.stopped then None
    else match DecodeEnvelope(wire, o.limits)
      case Ok(e) => Some(e)
      case _ => None
  }

  /** Meant for this node, and within the tolerance of its clock. */
  predicate InTime(r: Router, o: Options, e: Envelope, env: Env) {
    e.destination == r.id && InTolerance(o, env.now, e.timestamp)
  }

  /** The pair an arrival has the nonce guard check: that of an envelope for this node, in time. */
  function NonceCheck(r: Router, o: Options, wire: Bytes, env: Env): seq<(Id, nat)> {
    match TakenIn(r, o, wire)
    case None => []
    case Some(e) => if InTime(r, o, e, env) then [(e.source, e.nonce)] else []
  }

  /** The id it has the id guard check: of an envelope to relay, or of one past the nonce guard. */
  function IdCheck(r: Router, o: Options, wire: Bytes, env: Env): seq<nat> {
    match TakenIn(r, o, wire)
    case None => []
    case Some(e) =>
      if e.destination != r.id || (InTime(r, o, e, env) && !Remembered(r.nonces, e.source, e.nonce) && o.dedup)
      then [e.messageId] else []
  }

  /** Guards after the checks. */
  predicate Checked(r: Router, q: Router, o: Options, nonces: seq<(Id, nat)>, ids: seq<nat>)
    requires ValidOptions(o) && |nonces| <= 1 && |ids| <= 1
  {
    && q.nonces == (if nonces == [] then r.nonces else NonceStep(r.nonces, nonces[0].0, nonces[0].1, o.caps))
    && q.seen == (if ids == [] then r.seen else Touch(r.seen, ids[0], 0, 0, o.seenCapacity))
  }

  lemma ReceiveChecks(r: Router, o: Options, wire: Bytes, env: Env)
    requires ValidOptions(o)
    ensures Checked(r, Receive(r, o, wire, env).r, o, NonceCheck(r, o, wire, env), IdCheck(r, o, wire, env))
  {
    hide Report, Accept, DecodeEnvelope, InTolerance, NonceStep, Touch, Remembered, Has, EncodeEnvelope;
    match DecodeEnvelope(wire, o.limits)
    case Ok(e) =>
      EncodeDecode(wire, o.limits);
      if e.destination == r.id { DeliverChecks(r, o, e, env); }
    case OkUnknownType(e) => EncodeDecodeUnknown(wire, o.limits);
    case _ =>
  }

  lemma DeliverChecks(r: Router, o: Options, e: Envelope, env: Env)
    requires ValidOptions(o) && e.routePos <= |e.route| && e.destination == r.id
    ensures Checked(r, Deliver(r, o, e, env).r, o,
                    if InTime(r, o, e, env) then [(e.source, e.nonce)] else [],
                    if InTime(r, o, e, env) && !Remembered(r.nonces, e.source, e.nonce) && o.dedup then [e.messageId] else [])
  {
    hide Report, Accept, InTolerance, NonceStep, Touch, Remembered, Has;
    var r1 := r.(nonces := NonceStep(r.nonces, e.source, e.nonce, o.caps));
    var r2 := if o.dedup then r1.(seen := Touch(r1.seen, e.messageId, 0, 0, o.seenCapacity)) else r1;
    AcceptKeepsRouter(r2, o, e, env);
  }

  /** Only arrivals touch the guards. */
  lemma OthersCheckNothing(r: Router, o: Options, t: Task, env: Env, error: Option<Errc>)
    requires ValidOptions(o) && !t.Arrive?
    ensures Execute(r, o, t, env, error).r.nonces == r.nonces && Execute(r, o, t, env, error).r.seen == r.seen
  {
    hide Report, Refusal, Prepare, Encodable, WireOf;
  }

  // ---------------------------------------------------------------- over all runs

  /** Routers as created: guards that have checked nothing. */
  ghost predicate Unused(s: Mesh) { forall n :: n in s.routers ==> s.routers[n].seen == [] && s.routers[n].nonces == [] }

  /** The step is an arrival at `n`. */
  predicate ArrivesAt(s: Mesh, step: Step, n: Id) {
    step.Run? && step.i < |s.pool| && s.pool[step.i].Arrive? && s.pool[step.i].at == n && n in s.routers
  }

  function NonceChecks(s: Mesh, step: Step, cfg: Config, n: Id): (r: seq<(Id, nat)>)
    ensures |r| <= 1
  {
    if ArrivesAt(s, step, n) then NonceCheck(s.routers[n], cfg(n), s.pool[step.i].wire, step.env) else []
  }

  function IdChecks(s: Mesh, step: Step, cfg: Config, n: Id): (r: seq<nat>)
    ensures |r| <= 1
  {
    if ArrivesAt(s, step, n) then IdCheck(s.routers[n], cfg(n), s.pool[step.i].wire, step.env) else []
  }

  /** The pairs the nonce guard of `n` has checked in the first `k` steps. */
  function NonceLog(states: seq<Mesh>, steps: seq<Step>, cfg: Config, n: Id, k: nat): seq<(Id, nat)>
    requires |states| == |steps| + 1 && k <= |steps|
  {
    if k == 0 then [] else NonceLog(states, steps, cfg, n, k - 1) + NonceChecks(states[k - 1], steps[k - 1], cfg, n)
  }

  /** The ids its id guard has checked. */
  function IdLog(states: seq<Mesh>, steps: seq<Step>, cfg: Config, n: Id, k: nat): seq<nat>
    requires |states| == |steps| + 1 && k <= |steps|
  {
    if k == 0 then [] else IdLog(states, steps, cfg, n, k - 1) + IdChecks(states[k - 1], steps[k - 1], cfg, n)
  }

  lemma StepChecks(s: Mesh, step: Step, t: Mesh, cfg: Config, n: Id)
    requires Configured(cfg) && IsStep(s, step, t, cfg) && n in s.routers
    ensures n in t.routers
    ensures Checked(s.routers[n], t.routers[n], cfg(n), NonceChecks(s, step, cfg, n), IdChecks(s, step, cfg, n))
  {
    hide Receive, Execute, NonceCheck, IdCheck;
    if step.Run? {
      var x := s.pool[step.i];
      var r, o := s.routers[x.at], cfg(x.at);
      if x.Arrive? {
        ReceiveChecks(r, o, x.wire, step.env);
        ArrivalReceives(r, o, x, step.env, step.error);
      } else {
        OthersCheckNothing(r, o, x, step.env, step.error);
      }
    }
  }

  lemma ArrivalReceives(r: Router, o: Options, t: Task, env: Env, error: Option<Errc>)
    requires ValidOptions(o) && t.Arrive?
    ensures Execute(r, o, t, env, error) == Receive(r, o, t.wire, env)
  {}

  /** Guards that are what these checks make of empty ones. */
  predicate Logged(r: Router, o: Options, log: seq<(Id, nat)>, ids: seq<nat>)
    requires ValidOptions(o)
  {
    r.nonces == GuardAll(log, o.caps) && r.seen == TouchAll([], ids, o.seenCapacity)
  }

  lemma LoggedFresh(r: Router, o: Options)
    requires ValidOptions(o) && r.nonces == [] && r.seen == []
    ensures Logged(r, o, [], [])
  {}

  lemma LoggedStep(r: Router, q: Router, o: Options, log: seq<(Id, nat)>, ids: seq<nat>, more: seq<(Id, nat)>, moreIds: seq<nat>)
    requires ValidOptions(o) && Logged(r, o, log, ids) && |more| <= 1 && |moreIds| <= 1 && Checked(r, q, o, more, moreIds)
    ensures Logged(q, o, log + more, ids + moreIds)
  {
    hide NonceStep, Touch;
    if more == [] { assert log + more == log; } else { assert (log + more)[..|log|] == log; }
    if moreIds == [] { assert ids + moreIds == ids; } else { assert (ids + moreIds)[..|ids|] == ids; }
  }

  /** At every moment of every run, a router's guards are exactly what its checks so far make of empty ones. */
  lemma {:induction false} GuardsLogged(states: seq<Mesh>, steps: seq<Step>, cfg: Config, n: Id, k: nat)
    requires Configured(cfg) && IsRun(states, steps, cfg) && Unused(states[0]) && k < |states| && n in states[0].routers
    ensures n in states[k].routers
    ensures Logged(states[k].routers[n], cfg(n), NonceLog(states, steps, cfg, n, k), IdLog(states, steps, cfg, n, k))
  {
    hide NonceChecks, IdChecks, Checked, Logged, IsStep;
    if k == 0 {
      LoggedFresh(states[0].routers[n], cfg(n));
    } else {
      GuardsLogged(states, steps, cfg, n, k - 1);
      var s, step := states[k - 1], steps[k - 1];
      assert IsStep(s, step, states[k], cfg);
      StepChecks(s, step, states[k], cfg, n);
      LoggedStep(s.routers[n], states[k].routers[n], cfg(n), NonceLog(states, steps, cfg, n, k - 1),
                 IdLog(states, steps, cfg, n, k - 1), NonceChecks(s, step, cfg, n), IdChecks(s, step, cfg, n));
    }
  }

  lemma {:induction false} LogsExtend(states: seq<Mesh>, steps: seq<Step>, cfg: Config, n: Id, i: nat, j: nat)
    requires |states| == |steps| + 1 && i <= j <= |steps|
    ensures NonceLog(states, steps, cfg, n, i) <= NonceLog(states, steps, cfg, n, j)
    ensures IdLog(states, steps, cfg, n, i) <= IdLog(states, steps, cfg, n, j)
    decreases j
  {
    hide NonceChecks, IdChecks;
    if i < j { LogsExtend(states, steps, cfg, n, i, j - 1); }
  }

  // ---------------------------------------------------------------- what gets past the guards

  /** In step `j` the envelope `e` gets past the clock and the nonce guard of its destination `n`. */
  ghost predicate Passes(s: Mesh, step: Step, cfg: Config, n: Id, e: Envelope) {
    && ArrivesAt(s, step, n) && TakenIn(s.routers[n], cfg(n), s.pool[step.i].wire) == Some(e)
    && InTime(s.routers[n], cfg(n), e, step.env) && !Remembered(s.routers[n].nonces, e.source, e.nonce)
  }

  function From<T>(log: seq<T>, at: nat): seq<T> { if at <= |log| then log[at..] else [] }

  lemma FromSplits<T>(all: seq<T>, a: seq<T>, c: seq<T>)
    requires |c| == 1 && a + c <= all
    ensures all == a + [c[0]] + From(all, |a + c|)
  {
    assert c == [c[0]];
  }

  /** The pairs checked strictly between steps `i` and `j`. */
  function Between(states: seq<Mesh>, steps: seq<Step>, cfg: Config, n: Id, i: nat, j: nat): seq<(Id, nat)>
    requires |states| == |steps| + 1 && i < j <= |steps|
  {
    From(NonceLog(states, steps, cfg, n, j), |NonceLog(states, steps, cfg, n, i + 1)|)
  }

  lemma BetweenSplits(states: seq<Mesh>, steps: seq<Step>, cfg: Config, n: Id, i: nat, j: nat)
    requires |states| == |steps| + 1 && i < j <= |steps| && |NonceChecks(states[i], steps[i], cfg, n)| == 1
    ensures NonceLog(states, steps, cfg, n, j)
         == NonceLog(states, steps, cfg, n, i) + [NonceChecks(states[i], steps[i], cfg, n)[0]] + Between(states, steps, cfg, n, i, j)
  {
    hide NonceChecks, IdLog;
    LogsExtend(states, steps, cfg, n, i + 1, j);
    var a, c := NonceLog(states, steps, cfg, n, i), NonceChecks(states[i], steps[i], cfg, n);
    assert NonceLog(states, steps, cfg, n, i + 1) == a + c;
    hide NonceLog, From;
    FromSplits(NonceLog(states, steps, cfg, n, j), a, c);
  }

  /**
   * Replay in runs. If one router lets the same envelope past its clock and its
   * nonce guard at two steps of a run, the two clocks lie within twice the
   * tolerance, and in between it checked `nonceCapacity` other nonces of that
   * source or `maxTrackedSources` other sources.
   */
  lemma TwoAcceptances(states: seq<Mesh>, steps: seq<Step>, cfg: Config, n: Id, i: nat, j: nat, e: Envelope, again: Envelope)
    requires Configured(cfg) && IsRun(states, steps, cfg) && Unused(states[0]) && i < j < |steps| && n in states[0].routers
    requires Passes(states[i], steps[i], cfg, n, e) && Passes(states[j], steps[j], cfg, n, again) && SameMessage(e, again)
    requires steps[i].env.now < 0x8000_0000_0000_0000 && steps[j].env.now < 0x8000_0000_0000_0000
    ensures var b := Between(states, steps, cfg, n, i, j);
            && -2 * cfg(n).tolerance <= steps[j].env.now - steps[i].env.now <= 2 * cfg(n).tolerance
            && (|| |ToSet(NoncesOf(b, e.source)) - {e.nonce}| >= cfg(n).caps.nonceCapacity
                || |ToSet(SourcesOf(b)) - {e.source}| >= cfg(n).caps.maxTrackedSources)
  {
    hide GuardAll, TouchAll, Remembered, DecodeEnvelope, NonceLog, IdLog, IsStep, Between;
    GuardsLogged(states, steps, cfg, n, j);
    BetweenSplits(states, steps, cfg, n, i, j);
    ChurnSince(NonceLog(states, steps, cfg, n, i), e.source, e.nonce, Between(states, steps, cfg, n, i, j), cfg(n).caps);
  }

  /**
   * The exact replay window of a router in a run: a pair checked at step `i` and
   * not since is rejected at step `j` exactly when its source was never pushed
   * out by `maxTrackedSources` others and fewer than `nonceCapacity` other nonces
   * of that source were checked.
   */
  lemma RejectedExactly(states: seq<Mesh>, steps: seq<Step>, cfg: Config, n: Id, i: nat, j: nat, source: Id, nonce: nat)
    requires Configured(cfg) && IsRun(states, steps, cfg) && Unused(states[0]) && i < j < |states| && n in states[0].routers
    requires NonceChecks(states[i], steps[i], cfg, n) == [(source, nonce)] && (source, nonce) !in Between(states, steps, cfg, n, i, j)
    ensures n in states[j].routers
    ensures var b := Between(states, steps, cfg, n, i, j);
            Remembered(states[j].routers[n].nonces, source, nonce) <==>
              Kept(b, source, cfg(n).caps.maxTrackedSources) && |ToSet(NoncesOf(b, source))| < cfg(n).caps.nonceCapacity
  {
    hide GuardAll, TouchAll, Remembered, NonceLog, IdLog, NonceChecks, IsStep, Between, Kept;
    GuardsLogged(states, steps, cfg, n, j);
    BetweenSplits(states, steps, cfg, n, i, j);
    NonceWindow(NonceLog(states, steps, cfg, n, i), source, nonce, Between(states, steps, cfg, n, i, j), cfg(n).caps);
  }

  /** In that step an envelope with this id gets past the id guard of `n`. */
  ghost predicate IdPasses(s: Mesh, step: Step, cfg: Config, n: Id, id: nat) {
    ArrivesAt(s, step, n) && IdChecks(s, step, cfg, n) == [id] && !Has(s.routers[n].seen, id)
  }

  /** The ids checked strictly between steps `i` and `j`. */
  function IdsBetween(states: seq<Mesh>, steps: seq<Step>, cfg: Config, n: Id, i: nat, j: nat): seq<nat>
    requires |states| == |steps| + 1 && i < j <= |steps|
  {
    From(IdLog(states, steps, cfg, n, j), |IdLog(states, steps, cfg, n, i + 1)|)
  }

  lemma IdsSplit(states: seq<Mesh>, steps: seq<Step>, cfg: Config, n: Id, i: nat, j: nat)
    requires |states| == |steps| + 1 && i < j <= |steps| && |IdChecks(states[i], steps[i], cfg, n)| == 1
    ensures IdLog(states, steps, cfg, n, j)
         == IdLog(states, steps, cfg, n, i) + [IdChecks(states[i], steps[i], cfg, n)[0]] + IdsBetween(states, steps, cfg, n, i, j)
  {
    hide IdChecks, NonceLog;
    LogsExtend(states, steps, cfg, n, i + 1, j);
    var a, c := IdLog(states, steps, cfg, n, i), IdChecks(states[i], steps[i], cfg, n);
    assert IdLog(states, steps, cfg, n, i + 1) == a + c;
    hide IdLog, From;
    FromSplits(IdLog(states, steps, cfg, n, j), a, c);
  }

  /** Ring protection in runs: a router lets the same id pass twice only after `seenCapacity` other ids. */
  lemma RingGuarded(states: seq<Mesh>, steps: seq<Step>, cfg: Config, n: Id, i: nat, j: nat, id: nat)
    requires Configured(cfg) && IsRun(states, steps, cfg) && Unused(states[0]) && i < j < |steps| && n in states[0].routers
    requires IdPasses(states[i], steps[i], cfg, n, id) && IdPasses(states[j], steps[j], cfg, n, id)
    ensures |ToSet(IdsBetween(states, steps, cfg, n, i, j)) - {id}| >= cfg(n).seenCapacity
  {
    hide GuardAll, TouchAll, Has, NonceLog, IdLog, IdChecks, IsStep, IdsBetween;
    GuardsLogged(states, steps, cfg, n, j);
    IdsSplit(states, steps, cfg, n, i, j);
    IdChurnSince(IdLog(states, steps, cfg, n, i), id, IdsBetween(states, steps, cfg, n, i, j), cfg(n).seenCapacity);
  }
}
