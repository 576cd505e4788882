/** What becomes of a message when the nodes on its route are willing: journeys out and back. */
module MeshJourney {
  import opened ByteCodec
  import opened Seqs
  import opened EnvelopeCodec
  import opened Lru
  import opened ReplayGuard
  import opened Router
  import opened Mesh
  import opened MeshRoutes

  function Min(a: nat, b: nat): nat { if a <= b then a else b }

  /** The node can hand something of its own off to `next`. */
  ghost predicate CanShip(s: Mesh, cfg: Config, n: Id, next: Id, isReport: bool) {
    && n in s.routers && s.routers[n].id == n && !s.routers[n].stopped && next in s.routers[n].links
    && !Busy(s.pool, n) && (isReport || s.routers[n].inFlight < cfg(n).maxInFlight)
  }

  /** The `q`th hop is up, has room and a link onwards, and has not seen the message. */
  ghost predicate Willing(s: Mesh, cfg: Config, f: Envelope, q: nat)
    requires q < |f.route|
  {
    var n := f.route[q];
    && CanShip(s, cfg, n, Target(f, q + 1), false)
    && cfg(n).forwardEnabled && !Has(s.routers[n].seen, f.messageId) && Fits(f, cfg(n).limits)
  }

  // ---------------------------------------------------------------- runs, joined

  ghost predicate RunTo(states: seq<Mesh>, steps: seq<Step>, cfg: Config, s: Mesh, t: Mesh)
    requires Configured(cfg)
  {
    && IsRun(states, steps, cfg) && states[0] == s && states[|steps|] == t
    && forall i :: 0 <= i < |steps| ==> steps[i].Run?
  }

  /** Only tasks are run between the two states: `n` of them. */
  ghost predicate Leads(s: Mesh, t: Mesh, n: nat, cfg: Config)
    requires Configured(cfg)
  {
    exists states, steps :: RunTo(states, steps, cfg, s, t) && |steps| == n
  }

  lemma LeadsNone(s: Mesh, cfg: Config)
    requires Configured(cfg)
    ensures Leads(s, s, 0, cfg)
  {
    assert RunTo([s], [], cfg, s, s);
    var none: seq<Step> := [];
    assert RunTo([s], none, cfg, s, s) && |none| == 0;
  }

  lemma LeadsOn(s: Mesh, t: Mesh, n: nat, step: Step, cfg: Config)
    requires Configured(cfg) && Leads(s, t, n, cfg) && step.Run? && Enabled(t, step)
    ensures Leads(s, Next(t, step, cfg), n + 1, cfg)
  {
    hide Enabled, Next;
    var states, steps :| RunTo(states, steps, cfg, s, t) && |steps| == n;
    var states', steps' := states + [Next(t, step, cfg)], steps + [step];
    assert IsStep(t, step, Next(t, step, cfg), cfg);
    forall i | 0 <= i < |steps'| ensures IsStep(states'[i], steps'[i], states'[i + 1], cfg) {
      if i < |steps| { assert IsStep(states[i], steps[i], states[i + 1], cfg); }
    }
    assert RunTo(states', steps', cfg, s, Next(t, step, cfg));
  }

  // ---------------------------------------------------------------- one handoff

  lemma RemoveLast<T>(rest: seq<T>, x: T)
    ensures RemoveAt(rest + [x], |rest|) == rest
  {}

  lemma NotBusy(pool: seq<Task>, more: seq<Task>, n: Id)
    requires !Busy(pool, n) && forall i :: 0 <= i < |more| ==> !(more[i].Admit? && more[i].at == n)
    ensures !Busy(pool + more, n)
  {
    forall i | 0 <= i < |pool + more| ensures !((pool + more)[i].Admit? && (pool + more)[i].at == n) {
      if i < |pool| { assert (pool + more)[i] == pool[i]; } else { assert (pool + more)[i] == more[i - |pool|]; }
    }
  }

  /** Running the last task of the pool. */
  ghost function After(s: Mesh, rest: seq<Task>, out: Out): Mesh {
    s.(routers := s.routers[out.r.id := out.r], pool := rest + out.tasks,
       ended := s.ended + out.ended, lost := s.lost + out.lost, made := s.made + out.made)
  }

  lemma LastRuns(s: Mesh, rest: seq<Task>, x: Task, env: Env, error: Option<Errc>, cfg: Config)
    requires Configured(cfg) && s.pool == rest + [x] && x.at in s.routers
    requires x.Send? || x.Handoff? ==> !Busy(rest, x.at)
    requires Execute(s.routers[x.at], cfg(x.at), x, env, error).r.id == x.at
    ensures Enabled(s, Run(|rest|, env, error))
    ensures Next(s, Run(|rest|, env, error), cfg) == After(s, rest, Execute(s.routers[x.at], cfg(x.at), x, env, error))
  {
    hide Execute;
    RemoveLast(rest, x);
    if !Busy(rest, x.at) && !x.Admit? { NotBusy(rest, [x], x.at); }
  }

  /** The state once a handoff has gone through. */
  ghost function Shipped(s: Mesh, rest: seq<Task>, x: Task): Mesh
    requires x.Handoff? && x.at in s.routers
  {
    var r := s.routers[x.at];
    s.(routers := s.routers[x.at := if x.isReport then r else r.(inFlight := r.inFlight + 1)],
       pool := rest + [Arrive(x.next, x.wire), Callback(x.at, None, x.back, x.isReport, x.token)])
  }

  lemma AfterQuiet(s: Mesh, rest: seq<Task>, out: Out)
    requires out.ended == [] && out.lost == [] && out.made == []
    ensures After(s, rest, out) == s.(routers := s.routers[out.r.id := out.r], pool := rest + out.tasks)
  {
    assert s.ended + [] == s.ended && s.lost + [] == s.lost && s.made + [] == s.made;
  }

  /** One task of the pool that only posts more work. */
  lemma QuietStep(s0: Mesh, n0: nat, s: Mesh, rest: seq<Task>, x: Task, out: Out, env: Env, cfg: Config)
    requires Configured(cfg) && s.pool == rest + [x] && x.at in s.routers && Leads(s0, s, n0, cfg)
    requires x.Send? || x.Handoff? ==> !Busy(rest, x.at)
    requires out == Execute(s.routers[x.at], cfg(x.at), x, env, None) && out.r.id == x.at
    requires out.ended == [] && out.lost == [] && out.made == []
    ensures Leads(s0, s.(routers := s.routers[x.at := out.r], pool := rest + out.tasks), n0 + 1, cfg)
  {
    hide Execute, Busy, Leads, After, Next;
    LastRuns(s, rest, x, env, None, cfg);
    LeadsOn(s0, s, n0, Run(|rest|, env, None), cfg);
    AfterQuiet(s, rest, out);
  }

  /** A handoff by a node that can ship reaches the next node, in two or three tasks. */
  lemma Ships(s0: Mesh, n0: nat, s: Mesh, rest: seq<Task>, x: Task, env: Env, cfg: Config)
    requires Configured(cfg) && x.Handoff? && s.pool == rest + [x] && !Busy(rest, x.at)
    requires CanShip(s, cfg, x.at, x.next, x.isReport) && Leads(s0, s, n0, cfg)
    ensures Leads(s0, Shipped(s, rest, x), n0 + if x.isReport then 2 else 3, cfg)
  {
    hide Busy, Leads;
    var r, o := s.routers[x.at], cfg(x.at);
    var z := Notify(x.at, x.next, x.wire, x.back, x.isReport, x.token);
    if x.isReport {
      QuietStep(s0, n0, s, rest, x, Nothing(r).(tasks := [z]), env, cfg);
      var s1 := s.(routers := s.routers[x.at := r], pool := rest + [z]);
      NotifyShips(s0, n0 + 1, s1, rest, z, env, cfg);
    } else {
      var r1 := r.(inFlight := r.inFlight + 1);
      var y := Admit(x.at, x.next, x.wire, x.back, false, x.token, r.inFlight);
      QuietStep(s0, n0, s, rest, x, Nothing(r1).(tasks := [y]), env, cfg);
      var s1 := s.(routers := s.routers[x.at := r1], pool := rest + [y]);
      QuietStep(s0, n0 + 1, s1, rest, y, Nothing(r1).(tasks := [z]), env, cfg);
      var s2 := s1.(routers := s1.routers[x.at := r1], pool := rest + [z]);
      assert s2.routers == s1.routers;
      NotifyShips(s0, n0 + 2, s2, rest, z, env, cfg);
    }
  }

  lemma NotifyShips(s0: Mesh, n0: nat, s: Mesh, rest: seq<Task>, y: Task, env: Env, cfg: Config)
    requires Configured(cfg) && y.Notify? && s.pool == rest + [y] && y.at in s.routers && s.routers[y.at].id == y.at
    requires Leads(s0, s, n0, cfg)
    ensures Leads(s0, s.(pool := rest + [Arrive(y.next, y.wire), Callback(y.at, None, y.back, y.isReport, y.token)]), n0 + 1, cfg)
  {
    hide Busy, Leads;
    var out := RunNotify(s.routers[y.at], y, None);
    assert out.tasks == [Arrive(y.next, y.wire), Callback(y.at, None, y.back, y.isReport, y.token)];
    QuietStep(s0, n0, s, rest, y, out, env, cfg);
    assert s.routers[y.at := out.r] == s.routers;
  }

  // ---------------------------------------------------------------- one relay

  lemma LegFits(f: Envelope, p: nat, limits: Limits)
    requires Encodable(f) && p <= |f.route| && p <= f.ttl && Fits(f, limits)
    ensures Encodable(At(f, p)) && DecodeEnvelope(WireOf(At(f, p)), limits) == Ok(At(f, p))
  {
    hide EncodeHeader, DecodeEnvelope;
    RewriteBytes(f, f.ttl - p, p);
    DecodeWire(At(f, p), limits);
  }

  /** What a willing hop posts: the next leg while budget remains, a report of exhaustion after. */
  function WillingOut(r: Router, o: Options, f: Envelope, p: nat, env: Env): Out
    requires ValidOptions(o) && p < |f.route| <= 255 && p <= f.ttl
  {
    var r1 := r.(seen := Touch(r.seen, f.messageId, 0, 0, o.seenCapacity));
    if p < f.ttl
    then Nothing(r1).(tasks := [Handoff(r.id, Target(f, p + 1), WireOf(At(f, p + 1)), BackAt(f, p + 1), false, None)])
    else Reported(r1, o, Back(f.source, ReturnRoute(f.route, p), f.messageId, f.kind.Error?), TtlExhausted, env)
  }

  lemma ForwardsLeg(r: Router, o: Options, f: Envelope, p: nat, env: Env)
    requires ValidOptions(o) && Encodable(f) && p < |f.route| && p <= f.ttl && r.id == f.route[p]
    requires o.forwardEnabled && !Has(r.seen, f.messageId)
    ensures Forward(r, o, At(f, p), env) == WillingOut(r, o, f, p, env)
  {
    var e := At(f, p);
    hide EncodeHeader, Touch, Has, Report;
    if p < f.ttl { assert Advanced(e) == At(f, p + 1); }
  }

  lemma WillingForwards(s: Mesh, cfg: Config, f: Envelope, p: nat, env: Env)
    requires Configured(cfg) && Fresh(f) && Encodable(f) && p < |f.route| && p <= f.ttl && Willing(s, cfg, f, p)
    ensures var r, o := s.routers[f.route[p]], cfg(f.route[p]);
            Receive(r, o, WireOf(At(f, p)), env) == WillingOut(r, o, f, p, env)
  {
    var r, o := s.routers[f.route[p]], cfg(f.route[p]);
    var e := At(f, p);
    ForwardsLeg(r, o, f, p, env);
    hide DecodeEnvelope, EncodeHeader, Forward, Deliver, WillingOut, Busy, WireOf;
    LegFits(f, p, o.limits);
    assert e.destination != r.id;
  }

  /** Nobody outside `names` has changed. */
  ghost predicate Untouched(s: Mesh, t: Mesh, names: seq<Id>) {
    && t.routers.Keys == s.routers.Keys
    && forall m :: m in s.routers && m !in names ==> t.routers[m] == s.routers[m]
  }

  lemma UntouchedThen(s: Mesh, u: Mesh, t: Mesh, route: seq<Id>, p: nat)
    requires p < |route| && Untouched(s, u, [route[p]]) && Untouched(u, t, route)
    ensures Untouched(s, t, route)
  {
    forall m | m in s.routers && m !in route ensures t.routers[m] == s.routers[m] {
      assert route[p] in route && m !in [route[p]];
    }
  }

  /** The state once the arrived leg `p` has been relayed and has arrived again. */
  ghost predicate Moved(s: Mesh, t: Mesh, f: Envelope, p: nat, rest: seq<Task>)
    requires p < |f.route| <= 255 && p < f.ttl && f.route[p] in s.routers
  {
    var n := f.route[p];
    && t.pool == rest + [Arrive(Target(f, p + 1), WireOf(At(f, p + 1))), Callback(n, None, BackAt(f, p + 1), false, None)]
    && Untouched(s, t, [n])
  }

  lemma Relay(s0: Mesh, n0: nat, s: Mesh, i: nat, f: Envelope, p: nat, env: Env, cfg: Config) returns (t: Mesh)
    requires Configured(cfg) && Leads(s0, s, n0, cfg) && Fresh(f) && Encodable(f) && p < |f.route| && p < f.ttl
    requires i < |s.pool| && s.pool[i] == Arrive(f.route[p], WireOf(At(f, p))) && Willing(s, cfg, f, p)
    ensures Leads(s0, t, n0 + 4, cfg) && Moved(s, t, f, p, RemoveAt(s.pool, i))
  {
    var n := f.route[p];
    var r := s.routers[n];
    var rest := RemoveAt(s.pool, i);
    var r1 := r.(seen := Touch(r.seen, f.messageId, 0, 0, cfg(n).seenCapacity));
    var x := Handoff(n, Target(f, p + 1), WireOf(At(f, p + 1)), BackAt(f, p + 1), false, None);
    var s1 := s.(routers := s.routers[n := r1], pool := rest + [x]);
    RelayStep(s0, n0, s, i, f, p, env, cfg);
    RestIdle(s.pool, i, n);
    NotBusy(rest, [x], n);
    hide Leads, WireOf, Fresh, Touch, Busy;
    Ships(s0, n0 + 1, s1, rest, x, env, cfg);
    t := Shipped(s1, rest, x);
  }

  lemma RelayStep(s0: Mesh, n0: nat, s: Mesh, i: nat, f: Envelope, p: nat, env: Env, cfg: Config)
    requires Configured(cfg) && Leads(s0, s, n0, cfg) && Fresh(f) && Encodable(f) && p < |f.route| && p < f.ttl
    requires i < |s.pool| && s.pool[i] == Arrive(f.route[p], WireOf(At(f, p))) && Willing(s, cfg, f, p)
    ensures var r := s.routers[f.route[p]];
            var r1 := r.(seen := Touch(r.seen, f.messageId, 0, 0, cfg(f.route[p]).seenCapacity));
            var x := Handoff(f.route[p], Target(f, p + 1), WireOf(At(f, p + 1)), BackAt(f, p + 1), false, None);
            Leads(s0, s.(routers := s.routers[f.route[p] := r1], pool := RemoveAt(s.pool, i) + [x]), n0 + 1, cfg)
  {
    WillingForwards(s, cfg, f, p, env);
    hide Leads, WireOf, Fresh, Has, Fits, Touch, Receive, Busy, Encodable;
    LeadsOn(s0, s, n0, Run(i, env, None), cfg);
    assert s.ended + [] == s.ended && s.lost + [] == s.lost && s.made + [] == s.made;
  }

  lemma RestIdle(pool: seq<Task>, i: nat, n: Id)
    requires i < |pool| && !Busy(pool, n)
    ensures !Busy(RemoveAt(pool, i), n)
  {
    var rest := RemoveAt(pool, i);
    forall j | 0 <= j < |rest| ensures !(rest[j].Admit? && rest[j].at == n) {
      assert rest[j] == pool[if j < i then j else j + 1];
    }
  }

  /** A hop stays willing while others work. */
  lemma StillWilling(s: Mesh, t: Mesh, rest: seq<Task>, more: seq<Task>, i: nat, cfg: Config, f: Envelope, q: nat)
    requires q < |f.route| && Willing(s, cfg, f, q) && i < |s.pool| && rest == RemoveAt(s.pool, i) && t.pool == rest + more
    requires f.route[q] in t.routers && t.routers[f.route[q]] == s.routers[f.route[q]]
    requires forall k :: 0 <= k < |more| ==> !more[k].Admit?
    ensures Willing(t, cfg, f, q)
  {
    hide Has, Fits;
    RestIdle(s.pool, i, f.route[q]);
    NotBusy(rest, more, f.route[q]);
  }

  // ---------------------------------------------------------------- journeys

  /**
   * A message that has arrived at its `p`th hop, the rest of the route being
   * willing, visits exactly the remaining hops in order: it reaches the
   * destination when its budget covers the route, and otherwise the hop at
   * which the budget is spent. Nobody else's state is touched on the way.
   */
  lemma Journey(s0: Mesh, n0: nat, s: Mesh, i: nat, f: Envelope, p: nat, env: Env, cfg: Config) returns (t: Mesh, j: nat)
    requires Configured(cfg) && Leads(s0, s, n0, cfg) && Fresh(f) && Encodable(f) && p <= |f.route| && p <= f.ttl
    requires i < |s.pool| && s.pool[i] == Arrive(Target(f, p), WireOf(At(f, p)))
    requires forall q :: p <= q < |f.route| ==> Willing(s, cfg, f, q)
    ensures var stop := Min(f.ttl, |f.route|);
            && Leads(s0, t, n0 + 4 * (stop - p), cfg)
            && j < |t.pool| && t.pool[j] == Arrive(Target(f, stop), WireOf(At(f, stop)))
            && (stop < |f.route| ==> Willing(t, cfg, f, stop))
            && Untouched(s, t, f.route)
    decreases |f.route| - p
  {
    if p == |f.route| || p == f.ttl {
      t, j := s, i;
    } else {
      var u := Relay(s0, n0, s, i, f, p, env, cfg);
      RestWilling(s, u, i, f, p, cfg);
      hide Leads, WireOf, Willing, Fresh, Untouched, Moved, Encodable, Configured;
      assert Configured(cfg) && Encodable(f);
      t, j := Journey(s0, n0 + 4, u, |s.pool| - 1, f, p + 1, env, cfg);
      UntouchedThen(s, u, t, f.route, p);
    }
  }

  /** The rest of the route is as willing as before, and the next leg has arrived. */
  lemma RestWilling(s: Mesh, u: Mesh, i: nat, f: Envelope, p: nat, cfg: Config)
    requires Fresh(f) && p < |f.route| && p < f.ttl && f.route[p] in s.routers && i < |s.pool|
    requires Moved(s, u, f, p, RemoveAt(s.pool, i))
    requires forall q :: p <= q < |f.route| ==> Willing(s, cfg, f, q)
    ensures forall q :: p + 1 <= q < |f.route| ==> Willing(u, cfg, f, q)
    ensures |s.pool| - 1 < |u.pool| && u.pool[|s.pool| - 1] == Arrive(Target(f, p + 1), WireOf(At(f, p + 1)))
    ensures Untouched(s, u, [f.route[p]])
  {
    var rest := RemoveAt(s.pool, i);
    var more := [Arrive(Target(f, p + 1), WireOf(At(f, p + 1))), Callback(f.route[p], None, BackAt(f, p + 1), false, None)];
    hide WireOf, Has, Fits, Busy;
    forall q | p + 1 <= q < |f.route| ensures Willing(u, cfg, f, q) {
      assert f.route[q] !in [f.route[p]];
      StillWilling(s, u, rest, more, i, cfg, f, q);
    }
  }

  /** The whole route, when the budget covers it. */
  lemma Crossing(s0: Mesh, n0: nat, s: Mesh, i: nat, f: Envelope, env: Env, cfg: Config) returns (t: Mesh, j: nat)
    requires Configured(cfg) && Leads(s0, s, n0, cfg) && Fresh(f) && Encodable(f) && |f.route| <= f.ttl
    requires i < |s.pool| && s.pool[i] == Arrive(Target(f, 0), WireOf(f)) && f.destination in s.routers
    requires forall q :: 0 <= q < |f.route| ==> Willing(s, cfg, f, q)
    ensures Leads(s0, t, n0 + 4 * |f.route|, cfg)
    ensures j < |t.pool| && t.pool[j] == Arrive(f.destination, WireOf(At(f, |f.route|)))
    ensures f.destination in t.routers && t.routers[f.destination] == s.routers[f.destination]
  {
    assert At(f, 0) == f;
    hide Leads, WireOf, Willing, Encodable;
    t, j := Journey(s0, n0, s, i, f, 0, env, cfg);
  }

  /** The hop where the budget runs out tells the author so, along the reverse of the hops consumed. */
  lemma Exhausted(s: Mesh, j: nat, f: Envelope, env: Env, cfg: Config)
    requires Configured(cfg) && Fresh(f) && Encodable(f) && f.ttl < |f.route| && !f.kind.Error?
    requires j < |s.pool| && s.pool[j] == Arrive(f.route[f.ttl], WireOf(At(f, f.ttl))) && Willing(s, cfg, f, f.ttl)
    ensures var out := Outcome(s, j, env, None, cfg);
            && out.delivered == [] && |out.made| == 1 && Answers(out.made[0], f, f.ttl)
            && out.made[0].payload[0] == CodeByte(TtlExhausted)
            && out.tasks == [Handoff(f.route[f.ttl], Target(out.made[0], 0), WireOf(out.made[0]),
                                     Back(out.made[0].source, [], out.made[0].messageId, true), true, None)]
  {
    var n := f.route[f.ttl];
    var r, o := s.routers[n], cfg(n);
    WillingForwards(s, cfg, f, f.ttl, env);
    var r1 := r.(seen := Touch(r.seen, f.messageId, 0, 0, o.seenCapacity));
    var back := Back(f.source, ReturnRoute(f.route, f.ttl), f.messageId, false);
    var g := ReportEnvelope(r1, o, back, TtlExhausted, env);
    hide Touch, Has, Fits, Busy, EncodeHeader, Receive;
    assert Encodable(g) by { MirrorValid(f, f.ttl); }
  }

  lemma MirrorValid(f: Envelope, q: nat)
    requires WellFormed(f) && q <= |f.route|
    ensures |Reverse(f.route[..q])| == q && forall i :: 0 <= i < q ==> ValidId(Reverse(f.route[..q])[i])
  {
    forall i | 0 <= i < q ensures ValidId(Reverse(f.route[..q])[i]) {
      assert Reverse(f.route[..q])[i] == f.route[q - 1 - i];
    }
  }

  // ---------------------------------------------------------------- delivery

  /** What the destination insists on before it looks inside. */
  ghost predicate Accepts(r: Router, o: Options, f: Envelope, now: U64) {
    && r.id == f.destination && !r.stopped && Fits(f, o.limits) && InTolerance(o, now, f.timestamp)
    && !Remembered(r.nonces, f.source, f.nonce) && !(o.dedup && Has(r.seen, f.messageId))
  }

  /** Opening inverts sealing under the same key, nonce and additional data; a tag adds 16 bytes. */
  ghost predicate Inverts(a: Env, b: Env) {
    forall key, nonce, aad, plain :: a.seal(key, nonce, aad, plain).Some? ==>
      && |a.seal(key, nonce, aad, plain).value| == |plain| + TAG_BYTES
      && b.open(key, nonce, aad, a.seal(key, nonce, aad, plain).value) == Some(plain)
  }

  /** The destination reads what the sender wrote, although ttl and route_pos have changed under way. */
  lemma Unsealed(sender: Router, o: Options, m: Envelope, env: Env, reader: Router, env': Env, p: nat)
    requires Prepare(sender, o, m, env).Ready? && Inverts(env, env')
    requires m.encrypted ==> m.keyId in reader.keys && (m.keyId in sender.keys ==> reader.keys[m.keyId] == sender.keys[m.keyId])
    requires var e := Prepare(sender, o, m, env).e; p <= |e.route| <= 255 && p <= e.ttl
    ensures Unseal(reader, At(Prepare(sender, o, m, env).e, p), env') == Some(m.payload)
  {
    hide EncodeHeader, PutBE;
    if m.encrypted {
      var e0 := SendFresh(sender, o, m, env);
      var e := Prepare(sender, o, m, env).e;
      HeaderIgnoresPayload(e0.(ttl := 0, routePos := 0), |e.payload|);
      HeaderIgnoresPayload(At(e, p).(ttl := 0, routePos := 0), |e.payload|);
      assert Aad(At(e, p), |e.payload|) == Aad(e0, |e0.payload| + TAG_BYTES);
      assert AeadNonce(At(e, p)) == AeadNonce(e0);
    }
  }

  lemma DeliverAccepts(r: Router, o: Options, e: Envelope, payload: Bytes, env: Env)
    requires ValidOptions(o) && e.routePos <= |e.route| && InTolerance(o, env.now, e.timestamp)
    requires !Remembered(r.nonces, e.source, e.nonce) && !(o.dedup && Has(r.seen, e.messageId))
    requires Unseal(r, e, env) == Some(payload) && (e.kind.Data? || e.kind.Ack?)
    ensures Deliver(r, o, e, env).delivered == [e.(payload := payload)]
  {
    var r1 := r.(nonces := NonceStep(r.nonces, e.source, e.nonce, o.caps));
    var r2 := if o.dedup then r1.(seen := Touch(r1.seen, e.messageId, 0, 0, o.seenCapacity)) else r1;
    hide Aad, AeadNonce, InTolerance, Remembered, NonceStep, Touch, Has, Report, Emit;
    assert Unseal(r2, e, env) == Unseal(r, e, env);
  }

  lemma Delivers(r: Router, o: Options, f: Envelope, payload: Bytes, env: Env)
    requires ValidOptions(o) && Fresh(f) && Encodable(f) && |f.route| <= f.ttl && Accepts(r, o, f, env.now)
    requires Unseal(r, At(f, |f.route|), env) == Some(payload) && (f.kind.Data? || f.kind.Ack?)
    ensures Receive(r, o, WireOf(At(f, |f.route|)), env).delivered == [At(f, |f.route|).(payload := payload)]
  {
    var e := At(f, |f.route|);
    LegFits(f, |f.route|, o.limits);
    hide Fits, DecodeEnvelope, WireOf, Unseal, InTolerance, Remembered, Has, Deliver, Forward, Fresh;
    DeliverAccepts(r, o, e, payload, env);
  }

  // ---------------------------------------------------------------- from send to delivery

  /** The sending task gives `e`, and its node can hand it off. */
  ghost predicate Sends(s: Mesh, i: nat, e: Envelope, env: Env, cfg: Config) {
    && i < |s.pool| && s.pool[i].Send? && CanShip(s, cfg, s.pool[i].at, Target(e, 0), false) && ValidId(s.pool[i].at)
    && var r, o, m := s.routers[s.pool[i].at], cfg(s.pool[i].at), s.pool[i].m;
       && Refusal(r, o, m).None? && Prepare(r, o, m, env) == Ready(e) && Encodable(e)
       && |WireOf(e)| <= o.limits.maxEnvelopeBytes
  }

  ghost predicate Departed(s: Mesh, t: Mesh, i: nat, e: Envelope)
    requires i < |s.pool| && s.pool[i].Send? && s.pool[i].at in s.routers
  {
    var at := s.pool[i].at;
    && t.pool == RemoveAt(s.pool, i) + [Arrive(Target(e, 0), WireOf(e)),
                                        Callback(at, None, Back(e.source, [], e.messageId, true), false, s.pool[i].token)]
    && t.routers == s.routers[at := s.routers[at].(inFlight := s.routers[at].inFlight + 1)]
  }

  lemma SendStep(s: Mesh, i: nat, e: Envelope, env: Env, cfg: Config)
    requires Configured(cfg) && Sends(s, i, e, env, cfg)
    ensures Enabled(s, Run(i, env, None)) && Fresh(e)
    ensures var x := Handoff(s.pool[i].at, Target(e, 0), WireOf(e), Back(e.source, [], e.messageId, true), false, s.pool[i].token);
            Next(s, Run(i, env, None), cfg) == s.(pool := RemoveAt(s.pool, i) + [x], made := s.made + [e])
  {
    var at := s.pool[i].at;
    SendLegs(s.routers[at], cfg(at), s.pool[i], env, None);
    hide EncodeHeader, Busy, Refusal, Prepare, Leg, Fresh;
    assert s.routers[at := s.routers[at]] == s.routers;
    assert s.ended + [] == s.ended && s.lost + [] == s.lost;
  }

  lemma Departs(s: Mesh, i: nat, e: Envelope, env: Env, cfg: Config) returns (t: Mesh)
    requires Configured(cfg) && Sends(s, i, e, env, cfg)
    ensures Leads(s, t, 4, cfg) && Departed(s, t, i, e) && Fresh(e)
  {
    var at := s.pool[i].at;
    var rest := RemoveAt(s.pool, i);
    var x := Handoff(at, Target(e, 0), WireOf(e), Back(e.source, [], e.messageId, true), false, s.pool[i].token);
    var s1 := s.(pool := rest + [x], made := s.made + [e]);
    SendStep(s, i, e, env, cfg);
    LeadsNone(s, cfg);
    hide Leads, WireOf, Busy, Refusal, Prepare, Fresh, Encodable, Enabled, Next;
    LeadsOn(s, s, 0, Run(i, env, None), cfg);
    RestIdle(s.pool, i, at);
    assert !Busy(s1.pool, at) by { NotBusy(rest, [x], at); }
    Ships(s, 1, s1, rest, x, env, cfg);
    t := Shipped(s1, rest, x);
  }

  /**
   * End to end: a message accepted by `send` whose hops are willing, whose
   * budget covers its route and whose destination accepts it is handed to the
   * destination's application with exactly the sender's fields and payload,
   * sealed or not, having visited exactly its route.
   */
  lemma EndToEnd(s: Mesh, i: nat, e: Envelope, env: Env, env': Env, cfg: Config) returns (t: Mesh, j: nat)
    requires Configured(cfg) && Sends(s, i, e, env, cfg) && |e.route| <= e.ttl && (e.kind.Data? || e.kind.Ack?)
    requires forall q :: 0 <= q < |e.route| ==> Willing(s, cfg, e, q)
    requires e.destination in s.routers && Accepts(s.routers[e.destination], cfg(e.destination), e, env'.now)
    requires Inverts(env, env') && (e.encrypted ==> e.keyId in s.routers[e.destination].keys)
    requires e.encrypted && e.keyId in s.routers[s.pool[i].at].keys ==>
               s.routers[e.destination].keys[e.keyId] == s.routers[s.pool[i].at].keys[e.keyId]
    ensures Leads(s, t, 4 + 4 * |e.route|, cfg) && j < |t.pool| && t.pool[j].Arrive? && t.pool[j].at in t.routers
    ensures Outcome(t, j, env', None, cfg).delivered == [At(e, |e.route|).(payload := s.pool[i].m.payload)]
  {
    t, j := Travels(s, i, e, env, cfg);
    hide Leads, WireOf, Sends, Accepts, Inverts, Willing, Receive;
    Arrived(s, i, e, env, env', t.routers[e.destination], cfg);
  }

  lemma Travels(s: Mesh, i: nat, e: Envelope, env: Env, cfg: Config) returns (t: Mesh, j: nat)
    requires Configured(cfg) && Sends(s, i, e, env, cfg) && |e.route| <= e.ttl && e.destination in s.routers
    requires forall q :: 0 <= q < |e.route| ==> Willing(s, cfg, e, q)
    ensures Leads(s, t, 4 + 4 * |e.route|, cfg) && Fresh(e)
    ensures j < |t.pool| && t.pool[j] == Arrive(e.destination, WireOf(At(e, |e.route|)))
    ensures e.destination in t.routers
    ensures t.routers[e.destination] == s.routers[e.destination].(inFlight := t.routers[e.destination].inFlight)
  {
    var u := Departs(s, i, e, env, cfg);
    StillOpen(s, u, i, e, env, cfg);
    SendsEncodable(s, i, e, env, cfg);
    DepartedFacts(s, u, i, e);
    hide Leads, WireOf, Sends, Willing, Encodable, Fresh, Departed;
    t, j := Crossing(s, 4, u, |s.pool| - 1, e, env, cfg);
  }

  lemma DepartedFacts(s: Mesh, u: Mesh, i: nat, e: Envelope)
    requires i < |s.pool| && s.pool[i].Send? && s.pool[i].at in s.routers && Departed(s, u, i, e) && e.destination in s.routers
    ensures |s.pool| - 1 < |u.pool| && u.pool[|s.pool| - 1] == Arrive(Target(e, 0), WireOf(e))
    ensures e.destination in u.routers
    ensures u.routers[e.destination] == s.routers[e.destination].(inFlight := u.routers[e.destination].inFlight)
  {
    hide WireOf;
  }

  lemma SendsEncodable(s: Mesh, i: nat, e: Envelope, env: Env, cfg: Config)
    requires Sends(s, i, e, env, cfg)
    ensures Encodable(e)
  {}

  lemma StillOpen(s: Mesh, u: Mesh, i: nat, e: Envelope, env: Env, cfg: Config)
    requires Sends(s, i, e, env, cfg) && Departed(s, u, i, e) && Fresh(e)
    requires forall q :: 0 <= q < |e.route| ==> Willing(s, cfg, e, q)
    ensures forall q :: 0 <= q < |e.route| ==> Willing(u, cfg, e, q)
  {
    var at := s.pool[i].at;
    PreparedKeeps(s.routers[at], cfg(at), s.pool[i].m, env);
    var more := [Arrive(Target(e, 0), WireOf(e)), Callback(at, None, Back(e.source, [], e.messageId, true), false, s.pool[i].token)];
    hide Prepare, Refusal, Encodable, WireOf, Busy, Has, Fits;
    assert e.source == at;
    forall q | 0 <= q < |e.route| ensures Willing(u, cfg, e, q) {
      assert e.route[q] in e.route;
      StillWilling(s, u, RemoveAt(s.pool, i), more, i, cfg, e, q);
    }
  }

  lemma Arrived(s: Mesh, i: nat, e: Envelope, env: Env, env': Env, r: Router, cfg: Config)
    requires Configured(cfg) && Sends(s, i, e, env, cfg) && |e.route| <= e.ttl && (e.kind.Data? || e.kind.Ack?) && Fresh(e)
    requires e.destination in s.routers && Accepts(s.routers[e.destination], cfg(e.destination), e, env'.now)
    requires Inverts(env, env') && (e.encrypted ==> e.keyId in s.routers[e.destination].keys)
    requires e.encrypted && e.keyId in s.routers[s.pool[i].at].keys ==>
               s.routers[e.destination].keys[e.keyId] == s.routers[s.pool[i].at].keys[e.keyId]
    requires r == s.routers[e.destination].(inFlight := r.inFlight)
    ensures Receive(r, cfg(e.destination), WireOf(At(e, |e.route|)), env').delivered
         == [At(e, |e.route|).(payload := s.pool[i].m.payload)]
  {
    var at := s.pool[i].at;
    hide Refusal, Busy, InTolerance, Fits, Has, Remembered, WireOf, Fresh, Encodable, Receive;
    PreparedKeeps(s.routers[at], cfg(at), s.pool[i].m, env);
    hide Prepare;
    Unsealed(s.routers[at], cfg(at), s.pool[i].m, env, r, env', |e.route|);
    Delivers(r, cfg(e.destination), e, s.pool[i].m.payload, env');
  }

  lemma PreparedKeeps(r: Router, o: Options, m: Envelope, env: Env)
    requires Prepare(r, o, m, env).Ready?
    ensures var e := Prepare(r, o, m, env).e;
            e.encrypted == m.encrypted && e.keyId == m.keyId && e.route == m.route && e.destination == m.destination && e.source == r.id
  {}

  // ---------------------------------------------------------------- the way back

  ghost predicate Symmetric(s: Mesh) {
    forall a, b :: a in s.routers && b in s.routers && b in s.routers[a].links ==> a in s.routers[b].links
  }

  /** The hop can relay `g`, whichever links it has. */
  ghost predicate Obliging(s: Mesh, cfg: Config, n: Id, g: Envelope) {
    && n in s.routers && s.routers[n].id == n && !s.routers[n].stopped && !Busy(s.pool, n)
    && s.routers[n].inFlight < cfg(n).maxInFlight
    && cfg(n).forwardEnabled && !Has(s.routers[n].seen, g.messageId) && Fits(g, cfg(n).limits)
  }

  /** The link the message takes after `k` relays. */
  ghost predicate LinkedOut(s: Mesh, f: Envelope, k: nat) {
    k <= |f.route| && Holder(f, k) in s.routers && Target(f, k) in s.routers[Holder(f, k)].links
  }

  lemma MirrorHops(f: Envelope, g: Envelope, q: nat, i: nat)
    requires Answers(g, f, q) && i <= q
    ensures |g.route| == q <= |f.route| && Target(g, i) == Holder(f, q - i)
  {
    if i < q { assert g.route[i] == f.route[q - 1 - i]; }
  }

  lemma LinkedBack(s: Mesh, a: Id, b: Id)
    requires Symmetric(s) && a in s.routers && b in s.routers && b in s.routers[a].links
    ensures a in s.routers[b].links
  {}

  /** Links that carried a message out carry its answer back. */
  lemma MirrorWilling(s: Mesh, cfg: Config, f: Envelope, g: Envelope, q: nat, i: nat)
    requires Symmetric(s) && Answers(g, f, q) && i < q
    requires Obliging(s, cfg, f.route[q - 1 - i], g) && LinkedOut(s, f, q - 1 - i)
    ensures i < |g.route| && Willing(s, cfg, g, i)
  {
    hide Has, Fits, Busy, Answers, Symmetric;
    MirrorHops(f, g, q, i);
    MirrorHops(f, g, q, i + 1);
    LinkedBack(s, Holder(f, q - 1 - i), f.route[q - 1 - i]);
  }

  /** Everything the way back needs of the mesh. */
  ghost predicate WayBack(s: Mesh, cfg: Config, f: Envelope, g: Envelope, q: nat) {
    && Symmetric(s) && Answers(g, f, q) && q <= g.ttl
    && (forall k :: 0 <= k < q ==> Obliging(s, cfg, f.route[k], g))
    && (forall k :: 0 <= k <= q ==> LinkedOut(s, f, k))
  }

  lemma BackOpen(s: Mesh, cfg: Config, f: Envelope, g: Envelope, q: nat)
    requires WayBack(s, cfg, f, g, q) && g.source in s.routers
    ensures |g.route| == q && Target(g, q) == f.source && Target(g, 0) in s.routers[g.source].links
    ensures forall i :: 0 <= i < |g.route| ==> Willing(s, cfg, g, i)
  {
    MirrorHops(f, g, q, 0);
    MirrorHops(f, g, q, q);
    assert LinkedOut(s, f, q);
    LinkedBack(s, Holder(f, q), g.source);
    hide Answers, Symmetric, Willing;
    forall i | 0 <= i < |g.route| ensures Willing(s, cfg, g, i) {
      MirrorWilling(s, cfg, f, g, q, i);
    }
  }

  /**
   * The return path mirrors the way out: on symmetric links, a report or ack
   * raised after `q` relays walks back through exactly those relays, last first,
   * and reaches the author, when its own budget is at least `q`.
   */
  lemma ReturnsHome(s: Mesh, rest: seq<Task>, x: Task, f: Envelope, g: Envelope, q: nat, env: Env, cfg: Config) returns (t: Mesh, j: nat)
    requires Configured(cfg) && s.pool == rest + [x] && x.Handoff? && x.isReport && Leg(x, g, 0) && Encodable(g)
    requires WayBack(s, cfg, f, g, q)
    requires f.source in s.routers && x.at in s.routers
    requires s.routers[x.at].id == x.at && !s.routers[x.at].stopped && !Busy(s.pool, x.at)
    ensures Leads(s, t, 2 + 4 * q, cfg) && j < |t.pool| && t.pool[j] == Arrive(f.source, WireOf(At(g, q)))
  {
    BackOpen(s, cfg, f, g, q);
    var u := Shipped(s, rest, x);
    BackShips(s, rest, x, g, env, cfg);
    assert At(g, 0) == g;
    hide Leads, WireOf, Busy, WayBack, Encodable, Willing;
    t, j := Crossing(s, 2, u, |rest|, g, env, cfg);
  }

  lemma BackShips(s: Mesh, rest: seq<Task>, x: Task, g: Envelope, env: Env, cfg: Config)
    requires Configured(cfg) && s.pool == rest + [x] && x.Handoff? && x.isReport && Leg(x, g, 0)
    requires CanShip(s, cfg, x.at, x.next, true) && forall i :: 0 <= i < |g.route| ==> Willing(s, cfg, g, i)
    ensures Leads(s, Shipped(s, rest, x), 2, cfg)
    ensures forall i :: 0 <= i < |g.route| ==> Willing(Shipped(s, rest, x), cfg, g, i)
  {
    RemoveLast(rest, x);
    RestIdle(s.pool, |rest|, x.at);
    LeadsNone(s, cfg);
    var u := Shipped(s, rest, x);
    var more := [Arrive(x.next, x.wire), Callback(x.at, None, x.back, x.isReport, x.token)];
    hide Leads, WireOf, Busy, Has, Fits, Leg;
    Ships(s, 0, s, rest, x, env, cfg);
    forall i | 0 <= i < |g.route| ensures Willing(u, cfg, g, i) { StillWilling(s, u, rest, more, |rest|, cfg, g, i); }
  }
}
