/** Revoking a neighbor while links to it handshake and run. */
module Revocation {
  import opened ByteCodec
  import opened LinkCodec
  import opened Trust
  import opened Link
  import opened Seqs

  /**
   * The store, one link that listens to it, and everything in between: updates
   * applied whose listener call is still to come (`notices`), rechecks posted
   * to the link's executor (`queue`), and the moment inside the handshake
   * between looking a key up and acting on it (`verifying`).
   */
  datatype System = System(
    store: Snapshot, link: Link, notices: seq<Snapshot>, queue: seq<Snapshot>, verifying: Option<(Bytes, Bytes)>)

  datatype Step =
    | ApplyUpdate(next: Snapshot)                   // any thread, any time
    | Announce(i: nat)                              // any thread: the listener call posts a recheck
    | RequestStop                                   // any thread
    | RunRecheck(i: nat)
    | LookUp(payload: Bytes)
    | Conclude
    | Receive(f: Frame)
    | ReceiveUpdate(payload: Bytes)                 // a controller update on the wire
    | Lose(error: Errc)
    | Reattach(nonce: Bytes, epoch: U64)
    | Issue(id: U64, payload: Bytes)
    | RunStop

  datatype Env = Env(o: Options, controllerKey: Bytes, c: Credentials)

  /** Executor tasks run one at a time, so none starts while a handshake step is half done. */
  predicate Enabled(s: System, step: Step) {
    match step
    case ApplyUpdate(_) => true
    case Announce(i) => i < |s.notices|
    case RequestStop => true
    case Conclude => s.verifying.Some?
    case RunRecheck(i) => s.verifying.None? && i < |s.queue|
    case LookUp(_) => s.verifying.None? && s.link.connected
    case Receive(f) => s.verifying.None? && s.link.connected && !f.kind.HelloAuth? && !f.kind.EpochConfig?
    case ReceiveUpdate(_) => s.verifying.None? && s.link.connected
    case Lose(_) => s.verifying.None?
    case Reattach(nonce, _) => s.verifying.None? && !s.link.connected && |nonce| == NONCE_BYTES
    case Issue(_, _) => s.verifying.None?
    case RunStop => s.verifying.None? && s.link.stopped
  }

  /** The store takes the update up if it is newer and well formed; its listeners are then to be told. */
  function WithUpdate(s: System, next: Snapshot): System {
    var (store, outcome) := Apply(s.store, next);
    s.(store := store, notices := if outcome.Applied? then s.notices + [next] else s.notices)
  }

  function Next(s: System, step: Step, env: Env): System
    requires Enabled(s, step)
  {
    var o, l := env.o, s.link;
    match step
    case ApplyUpdate(next) => WithUpdate(s, next)
    case ReceiveUpdate(payload) =>
      var (r, taken) := HandleEpochConfig(l, o, payload, env.controllerKey, env.c);
      var t := s.(link := r);
      if taken.Some? then WithUpdate(t, taken.value) else t
    case Announce(i) => s.(notices := RemoveAt(s.notices, i), queue := s.queue + [s.notices[i]])
    case RequestStop => s.(link := l.(stopped := true))
    case RunRecheck(i) => s.(queue := RemoveAt(s.queue, i), link := Recheck(l, o, s.queue[i]))
    case LookUp(payload) => s.(verifying := Some((payload, NeighborKey(s.store.neighbors, l.hs.peerId))))
    case Conclude =>
      var (payload, key) := s.verifying.value;
      s.(verifying := None, link := HandleHelloAuth(l, o, payload, key, env.c.verify))
    case Receive(f) => s.(link := HandleFrame(l, o, f, s.store, env.controllerKey, env.c))
    case Lose(error) => s.(link := Disconnect(l, o, error))
    case Reattach(nonce, epoch) => s.(link := Attach(l, o, nonce, epoch))
    case Issue(id, payload) => s.(link := RunRequest(l, o, id, payload))
    case RunStop => s.(link := StopOnExecutor(l, o))
  }

  ghost predicate Run(states: seq<System>, steps: seq<Step>, env: Env, initial: Snapshot) {
    && |states| == |steps| + 1 && states[0] == System(initial, FRESH, [], [], None)
    && forall i :: 0 <= i < |steps| ==> Enabled(states[i], steps[i]) && states[i + 1] == Next(states[i], steps[i], env)
  }

  /** Signatures never verify under something that is not a key, such as the empty answer for an unknown id. */
  ghost predicate RejectsNonKeys(verify: (Bytes, Bytes, Bytes) -> bool) {
    forall k, m, s :: |k| != KEY_BYTES ==> !verify(k, m, s)
  }

  /** An update without `id` is on its way to the link. */
  ghost predicate Doubted(s: System, id: Id) {
    || (exists i :: 0 <= i < |s.notices| && !Trusts(s.notices[i].neighbors, id))
    || (exists i :: 0 <= i < |s.queue| && !Trusts(s.queue[i].neighbors, id))
  }

  ghost predicate Vouched(s: System, id: Id) {
    Trusts(s.store.neighbors, id) || Doubted(s, id)
  }

  ghost predicate Inv(s: System, env: Env) {
    && LinkInv(s.link, env.o) && ValidEntries(s.store.neighbors)
    && (s.link.ready && !s.link.stopped ==> Vouched(s, s.link.peer))
    && (s.verifying.Some? ==> s.link.connected)
    && (s.verifying.Some? && |s.verifying.value.1| == KEY_BYTES ==> Vouched(s, s.link.hs.peerId))
  }

  // ---------------------------------------------------------------- vouching survives every step

  lemma DoubtedFrom(s: System, t: System, id: Id)
    requires Doubted(s, id)
    requires forall u :: u in s.notices + s.queue && !Trusts(u.neighbors, id) ==> u in t.notices + t.queue
    ensures Doubted(t, id)
  {
    hide Trusts;
    var u :| u in s.notices + s.queue && !Trusts(u.neighbors, id);
    if u in t.notices {
      var i :| 0 <= i < |t.notices| && t.notices[i] == u;
    } else {
      var i :| 0 <= i < |t.queue| && t.queue[i] == u;
    }
  }

  lemma ApplyVouches(s: System, next: Snapshot, env: Env, id: Id)
    requires Vouched(s, id)
    ensures Vouched(Next(s, ApplyUpdate(next), env), id)
  {
    var t := Next(s, ApplyUpdate(next), env);
    if Doubted(s, id) {
      DoubtedFrom(s, t, id);
    } else if t.store != s.store && !Trusts(next.neighbors, id) {
      assert t.notices[|t.notices| - 1] == next;
    }
  }

  lemma AnnounceVouches(s: System, i: nat, env: Env, id: Id)
    requires Vouched(s, id) && i < |s.notices|
    ensures Vouched(Next(s, Announce(i), env), id)
  {
    var t := Next(s, Announce(i), env);
    if Doubted(s, id) {
      forall u | u in s.notices + s.queue ensures u in t.notices + t.queue {
        if u in s.notices {
          var j :| 0 <= j < |s.notices| && s.notices[j] == u;
          if j < i { assert t.notices[j] == u; }
          else if j > i { assert t.notices[j - 1] == u; }
          else { assert t.queue[|t.queue| - 1] == u; }
        }
      }
      DoubtedFrom(s, t, id);
    }
  }

  /** Running a recheck that trusts the peer leaves every other reason for doubt in place. */
  lemma RecheckVouches(s: System, i: nat, env: Env, id: Id)
    requires Vouched(s, id) && Enabled(s, RunRecheck(i)) && Trusts(s.queue[i].neighbors, id)
    ensures Vouched(Next(s, RunRecheck(i), env), id)
  {
    var t := Next(s, RunRecheck(i), env);
    if Doubted(s, id) {
      forall u | u in s.notices + s.queue && !Trusts(u.neighbors, id) ensures u in t.notices + t.queue {
        if u in s.queue {
          var j :| 0 <= j < |s.queue| && s.queue[j] == u;
          if j < i { assert t.queue[j] == u; } else { assert t.queue[j - 1] == u; }
        }
      }
      DoubtedFrom(s, t, id);
    }
  }

  /** A recheck without the peer takes a ready link down, marks it revoked and does not let it reconnect. */
  lemma RecheckRevokes(l: Link, o: Options, trust: Snapshot)
    requires LinkInv(l, o) && l.ready && !l.stopped && l.peer != [] && l.peer != o.nodeId
    ensures var r := Recheck(l, o, trust);
            if Trusts(trust.neighbors, l.peer) then r == l
            else !r.ready && !r.connected && r.peer == [] && r.peerRevoked && !r.reconnecting
  {}

  // ---------------------------------------------------------------- every step keeps the invariant

  lemma OutsideInv(s: System, step: Step, env: Env)
    requires Inv(s, env) && Enabled(s, step) && (step.ApplyUpdate? || step.Announce? || step.RequestStop?)
    ensures Inv(Next(s, step, env), env)
  {
    hide Vouched;
    match step
    case ApplyUpdate(next) =>
      if s.link.ready && !s.link.stopped { ApplyVouches(s, next, env, s.link.peer); }
      if s.verifying.Some? && |s.verifying.value.1| == KEY_BYTES { ApplyVouches(s, next, env, s.link.hs.peerId); }
    case Announce(i) =>
      if s.link.ready && !s.link.stopped { AnnounceVouches(s, i, env, s.link.peer); }
      if s.verifying.Some? && |s.verifying.value.1| == KEY_BYTES { AnnounceVouches(s, i, env, s.link.hs.peerId); }
    case RequestStop =>
      var t := Next(s, step, env);
      if s.verifying.Some? && |s.verifying.value.1| == KEY_BYTES { SameVouch(s, t, s.link.hs.peerId); }
  }

  /** Vouching looks only at the store and at what is outstanding. */
  lemma SameVouch(s: System, t: System, id: Id)
    requires s.store == t.store && s.notices == t.notices && s.queue == t.queue
    ensures Vouched(s, id) <==> Vouched(t, id)
  {}

  lemma LookUpInv(s: System, payload: Bytes, env: Env)
    requires Inv(s, env) && Enabled(s, LookUp(payload))
    ensures Inv(Next(s, LookUp(payload), env), env)
  {
    KeyMeansTrusted(s.store.neighbors, s.link.hs.peerId);
    SameVouch(s, Next(s, LookUp(payload), env), s.link.peer);
  }

  lemma ConcludeInv(s: System, env: Env)
    requires Inv(s, env) && Enabled(s, Conclude) && env.o.authenticated && RejectsNonKeys(env.c.verify)
    ensures Inv(Next(s, Conclude, env), env)
  {
    hide Vouched, AuthMessage, DecodeIdentity;
    var (payload, key) := s.verifying.value;
    var t := Next(s, Conclude, env);
    HelloAuthInv(s.link, env.o, payload, key, env.c.verify);
    SameVouch(s, t, s.link.hs.peerId);
    SameVouch(s, t, s.link.peer);
  }

  lemma RecheckStepInv(s: System, i: nat, env: Env)
    requires Inv(s, env) && Enabled(s, RunRecheck(i)) && env.o.authenticated
    ensures Inv(Next(s, RunRecheck(i), env), env)
  {
    hide Vouched;
    RecheckInv(s.link, env.o, s.queue[i]);
    if s.link.ready && !s.link.stopped && Trusts(s.queue[i].neighbors, s.link.peer) {
      RecheckVouches(s, i, env, s.link.peer);
    }
  }

  /** Steps that touch only the link, and leave it ready only with the peer it had. */
  lemma LinkOnlyInv(s: System, l: Link, env: Env)
    requires Inv(s, env) && s.verifying.None? && LinkInv(l, env.o)
    requires l.ready && !l.stopped ==> s.link.ready && !s.link.stopped && l.peer == s.link.peer
    ensures Inv(s.(link := l), env)
  {
    SameVouch(s, s.(link := l), s.link.peer);
  }

  lemma HelloKeepsPeer(l: Link, o: Options, payload: Bytes, trust: Snapshot, sign: Bytes -> Option<Bytes>)
    ensures var r := HandleHello(l, o, payload, trust, sign).0;
            (r.ready ==> l.ready && r.peer == l.peer) && r.stopped == l.stopped
  {
    hide AuthMessage, DecodeIdentity, EncodeIdentity, Acceptable, Remember, CompleteAll;
  }

  lemma PlainKeepsPeer(l: Link, o: Options, f: Frame)
    requires l.connected
    ensures var r := HandlePlain(l, o, f); (r.ready ==> l.ready && r.peer == l.peer) && r.stopped == l.stopped
  {
    hide Complete, CompleteAll;
  }

  /** In authenticated mode only a verified response makes a link ready. */
  lemma FrameKeepsPeer(l: Link, o: Options, f: Frame, trust: Snapshot, controllerKey: Bytes, c: Credentials)
    requires o.authenticated && !f.kind.HelloAuth? && l.connected
    ensures var r := HandleFrame(l, o, f, trust, controllerKey, c);
            (r.ready ==> l.ready && r.peer == l.peer) && r.stopped == l.stopped
  {
    hide HandleHello, DecodeUpdate, HandlePlain, Complete, CompleteAll;
    PlainKeepsPeer(l, o, f);
    HelloKeepsPeer(l, o, f.payload, trust, c.sign);
  }

  lemma ExecutorInv(s: System, step: Step, env: Env)
    requires Inv(s, env) && Enabled(s, step) && env.o.authenticated
    requires step.Receive? || step.Lose? || step.Reattach? || step.Issue? || step.RunStop?
    ensures Inv(Next(s, step, env), env)
  {
    var l, o := s.link, env.o;
    match step
    case Receive(f) =>
      hide HandleFrame, Inv;
      FrameInv(l, o, f, s.store, env.controllerKey, env.c);
      FrameKeepsPeer(l, o, f, s.store, env.controllerKey, env.c);
      LinkOnlyInv(s, HandleFrame(l, o, f, s.store, env.controllerKey, env.c), env);
    case Lose(error) =>
      DisconnectInv(l, o, error);
      LinkOnlyInv(s, Disconnect(l, o, error), env);
    case Reattach(nonce, epoch) =>
      AttachInv(l, o, nonce, epoch);
      LinkOnlyInv(s, Attach(l, o, nonce, epoch), env);
    case Issue(id, payload) =>
      RequestInv(l, o, id, payload);
      LinkOnlyInv(s, RunRequest(l, o, id, payload), env);
    case RunStop =>
      StopInv(l, o);
      LinkOnlyInv(s, StopOnExecutor(l, o), env);
  }

  lemma UpdateStepInv(s: System, payload: Bytes, env: Env)
    requires Inv(s, env) && Enabled(s, ReceiveUpdate(payload)) && env.o.authenticated
    ensures Inv(Next(s, ReceiveUpdate(payload), env), env)
  {
    var (r, taken) := HandleEpochConfig(s.link, env.o, payload, env.controllerKey, env.c);
    UpdateKeepsLink(s.link, env.o, payload, env.controllerKey, env.c);
    hide HandleEpochConfig, Inv, WithUpdate;
    LinkOnlyInv(s, r, env);
    if taken.Some? { OutsideInv(s.(link := r), ApplyUpdate(taken.value), env); }
  }

  lemma UpdateKeepsLink(l: Link, o: Options, payload: Bytes, controllerKey: Bytes, c: Credentials)
    requires LinkInv(l, o) && l.connected
    ensures var r := HandleEpochConfig(l, o, payload, controllerKey, c).0;
            LinkInv(r, o) && (r.ready ==> l.ready && r.peer == l.peer) && r.stopped == l.stopped
  {
    hide DecodeUpdate, Disconnect;
    DisconnectInv(l, o, ProtocolError);
    DownKeeps(l, o, ProtocolError);
  }

  lemma DownKeeps(l: Link, o: Options, e: Errc)
    ensures Disconnect(l, o, e).stopped == l.stopped && (l.connected ==> !Disconnect(l, o, e).ready)
  {}

  lemma StepInv(s: System, step: Step, env: Env)
    requires Inv(s, env) && Enabled(s, step)
    requires env.o.authenticated && RejectsNonKeys(env.c.verify)
    ensures Inv(Next(s, step, env), env)
  {
    hide Inv;
    match step
    case ApplyUpdate(_) => OutsideInv(s, step, env);
    case Announce(_) => OutsideInv(s, step, env);
    case RequestStop => OutsideInv(s, step, env);
    case RunRecheck(i) => RecheckStepInv(s, i, env);
    case LookUp(payload) => LookUpInv(s, payload, env);
    case Conclude => ConcludeInv(s, env);
    case ReceiveUpdate(payload) => UpdateStepInv(s, payload, env);
    case _ => ExecutorInv(s, step, env);
  }

  lemma {:induction false} RunInv(states: seq<System>, steps: seq<Step>, env: Env, initial: Snapshot, k: nat)
    requires Run(states, steps, env, initial) && k < |states| && ValidEntries(initial.neighbors)
    requires env.o.authenticated && RejectsNonKeys(env.c.verify)
    ensures Inv(states[k], env)
  {
    if k > 0 {
      RunInv(states, steps, env, initial, k - 1);
      StepInv(states[k - 1], steps[k - 1], env);
    }
  }

  // ---------------------------------------------------------------- main results

  /**
   * In every reachable state a ready, unstopped link's peer is trusted now, or
   * an update without that peer is still on its way to the link, wherever in
   * the handshake or in the link's life the update landed.
   */
  lemma RevocationSafety(states: seq<System>, steps: seq<Step>, env: Env, initial: Snapshot, k: nat)
    requires Run(states, steps, env, initial) && k < |states| && ValidEntries(initial.neighbors)
    requires env.o.authenticated && RejectsNonKeys(env.c.verify)
    ensures var s := states[k];
            s.link.ready && !s.link.stopped ==>
              || Trusts(s.store.neighbors, s.link.peer)
              || (exists i :: 0 <= i < |s.notices| && !Trusts(s.notices[i].neighbors, s.link.peer))
              || (exists i :: 0 <= i < |s.queue| && !Trusts(s.queue[i].neighbors, s.link.peer))
  {
    RunInv(states, steps, env, initial, k);
  }

  /** Once nothing is outstanding, ready means trusted now. */
  lemma QuietMeansTrusted(states: seq<System>, steps: seq<Step>, env: Env, initial: Snapshot, k: nat)
    requires Run(states, steps, env, initial) && k < |states| && ValidEntries(initial.neighbors)
    requires env.o.authenticated && RejectsNonKeys(env.c.verify)
    requires states[k].notices == [] && states[k].queue == [] && states[k].link.ready && !states[k].link.stopped
    ensures Trusts(states[k].store.neighbors, states[k].link.peer)
  {
    RunInv(states, steps, env, initial, k);
  }

  // ---------------------------------------------------------------- where the store's content comes from

  /** The step hands the store this snapshot: given by a local caller, or on an established link under the controller's signature. */
  ghost predicate Brings(s: System, step: Step, env: Env, snapshot: Snapshot) {
    || step == ApplyUpdate(snapshot)
    || (step.ReceiveUpdate? && s.link.hs.auth.Done? && UpdateEncodable(snapshot) && exists signature ::
          |signature| == SIGNATURE_BYTES && step.payload == EncodeUpdate(snapshot) + signature
          && env.c.verify(env.controllerKey, EncodeUpdate(snapshot), signature))
  }

  /** A step changes the store only to what it brings, and always when that is newer and well formed. */
  lemma StepBrings(s: System, step: Step, env: Env, u: Snapshot)
    requires Enabled(s, step)
    ensures var t := Next(s, step, env).store;
            && (t == s.store || (t.epoch > s.store.epoch && ValidEntries(t.neighbors) && Brings(s, step, env, t)))
            && (Brings(s, step, env, u) && ValidEntries(u.neighbors) && u.epoch > s.store.epoch ==> t == u)
  {
    hide HandleFrame, HandleHelloAuth, Attach, RunRequest, StopOnExecutor, Recheck, Disconnect, EncodeUpdate;
    if step.ReceiveUpdate? {
      var taken := HandleEpochConfig(s.link, env.o, step.payload, env.controllerKey, env.c).1;
      if taken.Some? { UpdateTakenExactly(s.link, env.o, step.payload, env.controllerKey, env.c, taken.value); }
      UpdateTakenExactly(s.link, env.o, step.payload, env.controllerKey, env.c, u);
      hide HandleEpochConfig;
    }
  }

  /**
   * Over every run the store holds its initial snapshot, or one that a local
   * caller applied or that came over the wire signed by the controller; and it
   * only ever moves to a newer epoch.
   */
  lemma {:induction false} StoreSigned(states: seq<System>, steps: seq<Step>, env: Env, initial: Snapshot, k: nat)
    requires Run(states, steps, env, initial) && k < |states|
    ensures states[k].store == initial ||
            exists j :: 0 <= j < k && Brings(states[j], steps[j], env, states[k].store) && ValidEntries(states[k].store.neighbors)
    ensures states[k].store.epoch >= initial.epoch
    ensures k > 0 ==> states[k].store == states[k - 1].store || states[k].store.epoch > states[k - 1].store.epoch
  {
    hide Next, Enabled, Brings, ValidEntries;
    if k > 0 {
      StoreSigned(states, steps, env, initial, k - 1);
      StepBrings(states[k - 1], steps[k - 1], env, initial);
    }
  }

  /** And it is never older than a well-formed snapshot brought to it so far. */
  lemma {:induction false} StoreNewest(states: seq<System>, steps: seq<Step>, env: Env, initial: Snapshot, k: nat, j: nat, u: Snapshot)
    requires Run(states, steps, env, initial) && j < k < |states|
    requires Brings(states[j], steps[j], env, u) && ValidEntries(u.neighbors)
    ensures u.epoch <= states[k].store.epoch
    decreases k
  {
    hide Next, Enabled, Brings, ValidEntries;
    StoreSigned(states, steps, env, initial, k);
    if j < k - 1 {
      StoreNewest(states, steps, env, initial, k - 1, j, u);
    } else {
      StepBrings(states[j], steps[j], env, u);
    }
  }
}
