/** The signed-challenge handshake among any number of nodes over a network the adversary controls. */
module HandshakeAgreement {
  import opened ByteCodec
  import opened Seqs
  import opened LinkCodec
  import opened Trust
  import opened Link

  datatype Session = Session(o: Options, link: Link)

  /** One use of a private key: whose, in which session, and what both sides of that session had sent. */
  datatype Signing = Signing(signer: Id, session: nat, ownNonce: Bytes, peerId: Id, peerNonce: Bytes)

  /**
   * All links of all nodes, the trust store of every node, every signature a
   * link made, every nonce a link drew. The adversary holds the keys of the
   * nodes in `corrupt` and signs with them what it likes.
   */
  datatype System = System(
    sessions: seq<Session>, stores: map<Id, Snapshot>, log: seq<Signing>, drawn: seq<Bytes>, corrupt: set<Id>)

  /** The adversary chooses every frame, its target and the timing. */
  datatype Step =
    | Open(o: Options)
    | AttachAt(i: nat, nonce: Bytes)
    | HelloAt(i: nat, payload: Bytes, signature: Option<Bytes>)
    | AuthAt(i: nat, payload: Bytes, accepted: bool)
    | FrameAt(i: nat, f: Frame)
    | LoseAt(i: nat, error: Errc)
    | RecheckAt(i: nat, trust: Snapshot)
    | StopAt(i: nat)
    | Install(node: Id, trust: Snapshot)

  function Message(e: Signing): Bytes { AuthMessage(e.signer, e.ownNonce, e.peerId, e.peerNonce) }

  /** Some link of the holder of that key signed the message. */
  ghost predicate Signed(log: seq<Signing>, keyOf: Id -> Bytes, key: Bytes, message: Bytes) {
    exists i :: 0 <= i < |log| && keyOf(log[i].signer) == key && Message(log[i]) == message
  }

  /** Public keys identify their holders. */
  ghost predicate KeysIdentify(keyOf: Id -> Bytes) {
    (forall a :: |keyOf(a)| == KEY_BYTES) && (forall a, b :: keyOf(a) == keyOf(b) ==> a == b)
  }

  /** The controller lists every neighbor under its own key. */
  ghost predicate Genuine(trust: Snapshot, keyOf: Id -> Bytes) {
    ValidEntries(trust.neighbors)
    && forall i :: 0 <= i < |trust.neighbors| ==> trust.neighbors[i].key == keyOf(trust.neighbors[i].id)
  }

  function StoreOf(s: System, node: Id): Snapshot {
    if node in s.stores then s.stores[node] else Update(0, [], [])
  }

  /** The response a session would check next. */
  function Expected(x: Session): Bytes {
    AuthMessage(x.link.hs.peerId, x.link.hs.peerNonce, x.o.nodeId, x.link.hs.ownNonce)
  }

  ghost predicate Enabled(s: System, step: Step, keyOf: Id -> Bytes) {
    match step
    case Open(o) => ValidOptions(o) && o.authenticated
    case AttachAt(i, nonce) => i < |s.sessions| && !s.sessions[i].link.connected && |nonce| == NONCE_BYTES
    case HelloAt(i, _, _) => i < |s.sessions| && s.sessions[i].link.connected
    // A signature verifies only if the key's holder made it, unless the adversary holds the key.
    case AuthAt(i, _, accepted) =>
      && i < |s.sessions| && s.sessions[i].link.connected
      && (accepted ==> var x := s.sessions[i];
                       || x.link.hs.peerId in s.corrupt
                       || Signed(s.log, keyOf, NeighborKey(StoreOf(s, x.o.nodeId).neighbors, x.link.hs.peerId), Expected(x)))
    case FrameAt(i, f) =>
      i < |s.sessions| && s.sessions[i].link.connected
      && !f.kind.Hello? && !f.kind.HelloAuth? && !f.kind.EpochConfig?
    case LoseAt(i, _) => i < |s.sessions|
    case RecheckAt(i, _) => i < |s.sessions|
    case StopAt(i) => i < |s.sessions|
    case Install(_, trust) => Genuine(trust, keyOf)
  }

  function HelloResult(s: System, i: nat, payload: Bytes, signature: Option<Bytes>): (Link, Option<Bytes>)
    requires i < |s.sessions|
  {
    HandleHello(s.sessions[i].link, s.sessions[i].o, payload, StoreOf(s, s.sessions[i].o.nodeId), _ => signature)
  }

  /** What the private key was used on in a hello step, if at all. */
  function NewSigning(s: System, i: nat, payload: Bytes, signature: Option<Bytes>): seq<Signing>
    requires i < |s.sessions|
  {
    var x := s.sessions[i];
    if HelloResult(s, i, payload, signature).1.None? || DecodeIdentity(payload, NONCE_BYTES).None? then []
    else
      var (id, _, nonce) := DecodeIdentity(payload, NONCE_BYTES).value;
      [Signing(x.o.nodeId, i, x.link.hs.ownNonce, id, nonce)]
  }

  function WithLink(s: System, i: nat, l: Link): System
    requires i < |s.sessions|
  {
    s.(sessions := s.sessions[i := s.sessions[i].(link := l)])
  }

  function AfterFrame(x: Session, f: Frame): Link {
    if !x.link.hs.auth.Done? then Disconnect(x.link, x.o, PermissionDenied) else HandlePlain(x.link, x.o, f)
  }

  ghost function Next(s: System, step: Step, keyOf: Id -> Bytes): System
    requires Enabled(s, step, keyOf)
  {
    match step
    case Open(o) => s.(sessions := s.sessions + [Session(o, FRESH)])
    case AttachAt(i, nonce) =>
      var x := s.sessions[i];
      WithLink(s, i, Attach(x.link, x.o, nonce, StoreOf(s, x.o.nodeId).epoch)).(drawn := s.drawn + [nonce])
    case HelloAt(i, payload, signature) =>
      WithLink(s, i, HelloResult(s, i, payload, signature).0).(log := s.log + NewSigning(s, i, payload, signature))
    case AuthAt(i, payload, accepted) =>
      var x := s.sessions[i];
      var key := NeighborKey(StoreOf(s, x.o.nodeId).neighbors, x.link.hs.peerId);
      WithLink(s, i, HandleHelloAuth(x.link, x.o, payload, key, (_, _, _) => accepted))
    case FrameAt(i, f) => WithLink(s, i, AfterFrame(s.sessions[i], f))
    case LoseAt(i, error) => WithLink(s, i, Disconnect(s.sessions[i].link, s.sessions[i].o, error))
    case RecheckAt(i, trust) => WithLink(s, i, Recheck(s.sessions[i].link, s.sessions[i].o, trust))
    case StopAt(i) => WithLink(s, i, s.sessions[i].link.(stopped := true))
    case Install(node, trust) => s.(stores := s.stores[node := trust])
  }

  function Start(corrupt: set<Id>): System { System([], map[], [], [], corrupt) }

  ghost predicate Run(states: seq<System>, steps: seq<Step>, keyOf: Id -> Bytes) {
    && |states| == |steps| + 1 && states[0] == Start(states[0].corrupt)
    && forall i :: 0 <= i < |steps| ==> Enabled(states[i], steps[i], keyOf) && states[i + 1] == Next(states[i], steps[i], keyOf)
  }

  // ---------------------------------------------------------------- invariants

  ghost predicate SigningInv(e: Signing) {
    Party(e.signer, e.ownNonce) && Party(e.peerId, e.peerNonce) && e.signer != e.peerId
  }

  /** The peer signed, in a session of its own, exactly the two challenges this link exchanged. */
  ghost predicate Matches(x: Session, e: Signing) {
    && e.signer == x.link.hs.peerId && e.ownNonce == x.link.hs.peerNonce
    && e.peerId == x.o.nodeId && e.peerNonce == x.link.hs.ownNonce
  }

  ghost predicate Answered(x: Session, log: seq<Signing>) {
    exists i :: 0 <= i < |log| && Matches(x, log[i])
  }

  ghost predicate SessionInv(x: Session, log: seq<Signing>, corrupt: set<Id>) {
    && ValidOptions(x.o) && x.o.authenticated && LinkInv(x.link, x.o)
    && (x.link.ready ==> x.link.hs.peerId in corrupt || Answered(x, log))
  }

  ghost predicate Inv(s: System, keyOf: Id -> Bytes) {
    && (forall i :: 0 <= i < |s.log| ==> SigningInv(s.log[i]))
    && (forall i :: 0 <= i < |s.sessions| ==> SessionInv(s.sessions[i], s.log, s.corrupt))
    && (forall n :: n in s.stores ==> Genuine(s.stores[n], keyOf))
  }

  lemma {:induction false} GenuineKey(ns: seq<Neighbor>, id: Id, keyOf: Id -> Bytes)
    requires forall i :: 0 <= i < |ns| ==> ns[i].key == keyOf(ns[i].id)
    ensures NeighborKey(ns, id) == [] || NeighborKey(ns, id) == keyOf(id)
  {
    if ns != [] && ns[0].id != id { GenuineKey(ns[1..], id, keyOf); }
  }

  /** A verified response can only come from the peer, and only from a session that saw our challenge. */
  lemma VerifiedMeansAnswered(s: System, i: nat, keyOf: Id -> Bytes)
    requires Inv(s, keyOf) && KeysIdentify(keyOf) && i < |s.sessions|
    requires var x := s.sessions[i];
             && x.link.connected && x.link.hs.auth.AwaitResponse?
             && Signed(s.log, keyOf, NeighborKey(StoreOf(s, x.o.nodeId).neighbors, x.link.hs.peerId), Expected(x))
    ensures Answered(s.sessions[i], s.log)
  {
    hide AuthMessage;
    var x := s.sessions[i];
    assert SessionInv(x, s.log, s.corrupt);
    var hs := x.link.hs;
    var key := NeighborKey(StoreOf(s, x.o.nodeId).neighbors, hs.peerId);
    var k :| 0 <= k < |s.log| && keyOf(s.log[k].signer) == key && Message(s.log[k]) == Expected(x);
    var e := s.log[k];
    GenuineKey(StoreOf(s, x.o.nodeId).neighbors, hs.peerId, keyOf);
    assert |keyOf(e.signer)| == KEY_BYTES;
    assert e.signer == hs.peerId;
    AuthMessageInjective(e.signer, e.ownNonce, e.peerId, e.peerNonce, hs.peerId, hs.peerNonce, x.o.nodeId, hs.ownNonce);
    assert Matches(x, e);
  }

  lemma AnsweredGrows(x: Session, log: seq<Signing>, more: seq<Signing>)
    requires Answered(x, log)
    ensures Answered(x, log + more)
  {
    var i :| 0 <= i < |log| && Matches(x, log[i]);
    assert (log + more)[i] == log[i];
  }

  /** Replacing one link, growing the log. */
  lemma ReplaceInv(s: System, i: nat, l: Link, more: seq<Signing>, keyOf: Id -> Bytes)
    requires Inv(s, keyOf) && i < |s.sessions|
    requires SessionInv(s.sessions[i].(link := l), s.log + more, s.corrupt)
    requires forall k :: 0 <= k < |more| ==> SigningInv(more[k])
    ensures Inv(WithLink(s, i, l).(log := s.log + more), keyOf)
  {
    hide LinkInv, Answered, ValidOptions;
    var t := WithLink(s, i, l).(log := s.log + more);
    forall j | 0 <= j < |t.sessions| ensures SessionInv(t.sessions[j], t.log, t.corrupt) {
      if j != i {
        assert t.sessions[j] == s.sessions[j] && SessionInv(s.sessions[j], s.log, s.corrupt);
        if Answered(t.sessions[j], s.log) { AnsweredGrows(t.sessions[j], s.log, more); }
      }
    }
  }

  /** A link step that cannot make the link ready, and keeps the challenges of one that stays ready. */
  lemma QuietInv(s: System, i: nat, l: Link, keyOf: Id -> Bytes)
    requires Inv(s, keyOf) && i < |s.sessions| && LinkInv(l, s.sessions[i].o)
    requires l.ready ==> s.sessions[i].link.ready && l.hs == s.sessions[i].link.hs
    ensures Inv(WithLink(s, i, l), keyOf)
  {
    var x := s.sessions[i];
    assert SessionInv(x, s.log, s.corrupt);
    var y := x.(link := l);
    if l.ready && x.link.hs.peerId !in s.corrupt {
      var k :| 0 <= k < |s.log| && Matches(x, s.log[k]);
      assert Matches(y, s.log[k]);
    }
    assert s.log + [] == s.log;
    ReplaceInv(s, i, l, [], keyOf);
  }

  /** A challenge is only accepted from someone else, and what is signed names both sides. */
  lemma HelloSigns(s: System, i: nat, payload: Bytes, signature: Option<Bytes>, keyOf: Id -> Bytes)
    requires Inv(s, keyOf) && Enabled(s, HelloAt(i, payload, signature), keyOf)
    ensures var more := NewSigning(s, i, payload, signature);
            var x, l := s.sessions[i], HelloResult(s, i, payload, signature).0;
            && |more| <= 1 && (forall k :: 0 <= k < |more| ==> SigningInv(more[k]))
            && (HelloResult(s, i, payload, signature).1.Some? ==>
                  && |more| == 1 && x.link.hs.auth.AwaitChallenge?
                  && HelloResult(s, i, payload, signature).1.value == Message(more[0])
                  && more[0].signer == x.o.nodeId && more[0].ownNonce == x.link.hs.ownNonce
                  && (l.connected ==> l.hs == Handshake(AwaitResponse, x.link.hs.ownNonce, more[0].peerId, more[0].peerNonce)))
            && (HelloResult(s, i, payload, signature).1.None? ==> more == [] && !l.connected)
            && !l.ready
  {
    hide AuthMessage, EncodeIdentity, DecodeIdentity, Remember, CompleteAll, Trusts;
    assert SessionInv(s.sessions[i], s.log, s.corrupt);
    if DecodeIdentity(payload, NONCE_BYTES).Some? { EncodeDecodeIdentity(payload, NONCE_BYTES); }
  }

  lemma HelloStepInv(s: System, i: nat, payload: Bytes, signature: Option<Bytes>, keyOf: Id -> Bytes)
    requires Inv(s, keyOf) && Enabled(s, HelloAt(i, payload, signature), keyOf)
    ensures Inv(Next(s, HelloAt(i, payload, signature), keyOf), keyOf)
  {
    hide LinkInv, HandleHello;
    var x := s.sessions[i];
    assert SessionInv(x, s.log, s.corrupt);
    HelloSigns(s, i, payload, signature, keyOf);
    HelloInv(x.link, x.o, payload, StoreOf(s, x.o.nodeId), _ => signature);
    ReplaceInv(s, i, HelloResult(s, i, payload, signature).0, NewSigning(s, i, payload, signature), keyOf);
  }

  lemma AuthStepInv(s: System, i: nat, payload: Bytes, accepted: bool, keyOf: Id -> Bytes)
    requires Inv(s, keyOf) && KeysIdentify(keyOf) && Enabled(s, AuthAt(i, payload, accepted), keyOf)
    ensures Inv(Next(s, AuthAt(i, payload, accepted), keyOf), keyOf)
  {
    hide LinkInv, AuthMessage, DecodeIdentity, Signed;
    var x := s.sessions[i];
    assert SessionInv(x, s.log, s.corrupt);
    var key := NeighborKey(StoreOf(s, x.o.nodeId).neighbors, x.link.hs.peerId);
    var l := HandleHelloAuth(x.link, x.o, payload, key, (_, _, _) => accepted);
    HelloAuthInv(x.link, x.o, payload, key, (_, _, _) => accepted);
    if accepted && x.link.hs.auth.AwaitResponse? && x.link.hs.peerId !in s.corrupt {
      VerifiedMeansAnswered(s, i, keyOf);
      var k :| 0 <= k < |s.log| && Matches(x, s.log[k]);
      assert Matches(x.(link := x.link.(peer := x.link.hs.peerId, hs := x.link.hs.(auth := Done), ready := true)), s.log[k]);
    }
    assert s.log + [] == s.log;
    ReplaceInv(s, i, l, [], keyOf);
  }

  lemma AttachStepInv(s: System, i: nat, nonce: Bytes, keyOf: Id -> Bytes)
    requires Inv(s, keyOf) && Enabled(s, AttachAt(i, nonce), keyOf)
    ensures Inv(Next(s, AttachAt(i, nonce), keyOf), keyOf)
  {
    var x := s.sessions[i];
    assert SessionInv(x, s.log, s.corrupt);
    AttachInv(x.link, x.o, nonce, StoreOf(s, x.o.nodeId).epoch);
    QuietInv(s, i, Attach(x.link, x.o, nonce, StoreOf(s, x.o.nodeId).epoch), keyOf);
  }

  lemma FrameStepInv(s: System, i: nat, f: Frame, keyOf: Id -> Bytes)
    requires Inv(s, keyOf) && Enabled(s, FrameAt(i, f), keyOf)
    ensures Inv(Next(s, FrameAt(i, f), keyOf), keyOf)
  {
    var x := s.sessions[i];
    assert SessionInv(x, s.log, s.corrupt);
    if x.link.hs.auth.Done? { PlainInv(x.link, x.o, f); } else { DisconnectInv(x.link, x.o, PermissionDenied); }
    QuietInv(s, i, AfterFrame(x, f), keyOf);
  }

  lemma StepInv(s: System, step: Step, keyOf: Id -> Bytes)
    requires Inv(s, keyOf) && KeysIdentify(keyOf) && Enabled(s, step, keyOf)
    ensures Inv(Next(s, step, keyOf), keyOf)
  {
    match step
    case Open(o) =>
    case AttachAt(i, nonce) => AttachStepInv(s, i, nonce, keyOf);
    case HelloAt(i, payload, signature) => HelloStepInv(s, i, payload, signature, keyOf);
    case AuthAt(i, payload, accepted) => AuthStepInv(s, i, payload, accepted, keyOf);
    case FrameAt(i, f) => FrameStepInv(s, i, f, keyOf);
    case LoseAt(i, error) =>
      assert SessionInv(s.sessions[i], s.log, s.corrupt);
      DisconnectInv(s.sessions[i].link, s.sessions[i].o, error);
      QuietInv(s, i, Disconnect(s.sessions[i].link, s.sessions[i].o, error), keyOf);
    case RecheckAt(i, trust) =>
      assert SessionInv(s.sessions[i], s.log, s.corrupt);
      RecheckInv(s.sessions[i].link, s.sessions[i].o, trust);
      QuietInv(s, i, Recheck(s.sessions[i].link, s.sessions[i].o, trust), keyOf);
    case StopAt(i) =>
      assert SessionInv(s.sessions[i], s.log, s.corrupt);
      QuietInv(s, i, s.sessions[i].link.(stopped := true), keyOf);
    case Install(node, trust) =>
  }

  lemma {:induction false} RunInv(states: seq<System>, steps: seq<Step>, keyOf: Id -> Bytes, k: nat)
    requires Run(states, steps, keyOf) && KeysIdentify(keyOf) && k < |states|
    ensures Inv(states[k], keyOf)
  {
    if k > 0 {
      RunInv(states, steps, keyOf, k - 1);
      StepInv(states[k - 1], steps[k - 1], keyOf);
    }
  }

  lemma {:induction false} CorruptStays(states: seq<System>, steps: seq<Step>, keyOf: Id -> Bytes, k: nat)
    requires Run(states, steps, keyOf) && k < |states|
    ensures states[k].corrupt == states[0].corrupt
  {
    hide HandleHello, HandleHelloAuth, Disconnect, Attach, Recheck, AfterFrame;
    if k > 0 { CorruptStays(states, steps, keyOf, k - 1); }
  }

  /**
   * Agreement. Whatever the network does, and whatever the holders of corrupt
   * keys sign, a link at A that is ready with a peer B whose key is not corrupt
   * means B signed in a session where B had sent the nonce A received and had
   * received the challenge (A, A's nonce).
   */
  lemma Agreement(states: seq<System>, steps: seq<Step>, keyOf: Id -> Bytes, k: nat, i: nat)
    requires Run(states, steps, keyOf) && KeysIdentify(keyOf) && k < |states| && i < |states[k].sessions|
    requires states[k].sessions[i].link.ready
    ensures var x := states[k].sessions[i];
            && x.link.peer != x.o.nodeId
            && (x.link.peer !in states[0].corrupt ==>
                  exists n :: && 0 <= n < |states[k].log|
                              && states[k].log[n].signer == x.link.peer && states[k].log[n].ownNonce == x.link.hs.peerNonce
                              && states[k].log[n].peerId == x.o.nodeId && states[k].log[n].peerNonce == x.link.hs.ownNonce)
  {
    RunInv(states, steps, keyOf, k);
    var x := states[k].sessions[i];
    assert SessionInv(x, states[k].log, states[k].corrupt);
    CorruptStays(states, steps, keyOf, k);
    if x.link.peer !in states[0].corrupt {
      var n :| 0 <= n < |states[k].log| && Matches(x, states[k].log[n]);
    }
  }

  /** Over every run a ready link is ready with the peer it was meant for, if it was meant for one. */
  lemma ExpectedPeer(states: seq<System>, steps: seq<Step>, keyOf: Id -> Bytes, k: nat, i: nat)
    requires Run(states, steps, keyOf) && KeysIdentify(keyOf) && k < |states| && i < |states[k].sessions|
    requires states[k].sessions[i].link.ready && states[k].sessions[i].o.expectedPeer != []
    ensures states[k].sessions[i].link.peer == states[k].sessions[i].o.expectedPeer
  {
    RunInv(states, steps, keyOf, k);
    assert SessionInv(states[k].sessions[i], states[k].log, states[k].corrupt);
  }

  // ---------------------------------------------------------------- which challenges are taken up

  function LastOf<T>(s: seq<T>, n: nat): seq<T> { if |s| > n then s[|s| - n..] else s }

  /** The challenge comes from a welcome node, with a nonce not among the last 256 taken up. */
  predicate TakenUp(s: System, i: nat, payload: Bytes, earlier: seq<Bytes>)
    requires i < |s.sessions|
  {
    && s.sessions[i].link.hs.auth.AwaitChallenge?
    && match DecodeIdentity(payload, NONCE_BYTES)
       case None => false
       case Some((id, _, nonce)) =>
         Welcome(s.sessions[i].o, StoreOf(s, s.sessions[i].o.nodeId), id) && nonce !in LastOf(earlier, 256)
  }

  /** The nonces of the challenges session `i` has taken up in the first `k` steps. */
  function NoncesTaken(states: seq<System>, steps: seq<Step>, i: nat, k: nat): seq<Bytes>
    requires |states| == |steps| + 1 && k <= |steps|
  {
    if k == 0 then []
    else
      var earlier, s := NoncesTaken(states, steps, i, k - 1), states[k - 1];
      match steps[k - 1]
      case HelloAt(j, payload, _) =>
        if j == i && i < |s.sessions| && TakenUp(s, i, payload, earlier)
        then earlier + [DecodeIdentity(payload, NONCE_BYTES).value.2] else earlier
      case _ => earlier
  }

  lemma RememberLast(log: seq<Bytes>, nonce: Bytes)
    ensures Remember(LastOf(log, 256), nonce) == LastOf(log + [nonce], 256)
  {}

  lemma OthersRemember(x: Session, payload: Bytes, key: Bytes, accepted: bool, f: Frame, error: Errc, trust: Snapshot, nonce: Bytes, epoch: U64)
    ensures Disconnect(x.link, x.o, error).seenNonces == x.link.seenNonces
    ensures HandleHelloAuth(x.link, x.o, payload, key, (_, _, _) => accepted).seenNonces == x.link.seenNonces
    ensures AfterFrame(x, f).seenNonces == x.link.seenNonces && Recheck(x.link, x.o, trust).seenNonces == x.link.seenNonces
    ensures Attach(x.link, x.o, nonce, epoch).seenNonces == x.link.seenNonces
  {
    hide AuthMessage, DecodeIdentity, CompleteAll, Complete, Trusts, HelloFrame;
  }

  /** A link remembers exactly the nonces of the last 256 challenges it has taken up. */
  ghost predicate Remembers(s: System, i: nat, log: seq<Bytes>) {
    if i < |s.sessions| then s.sessions[i].link.seenNonces == LastOf(log, 256) else log == []
  }

  lemma HelloRemembers(s: System, i: nat, payload: Bytes, signature: Option<Bytes>, keyOf: Id -> Bytes, log: seq<Bytes>)
    requires Enabled(s, HelloAt(i, payload, signature), keyOf) && s.sessions[i].link.seenNonces == LastOf(log, 256)
    ensures HelloResult(s, i, payload, signature).0.seenNonces ==
              LastOf(if TakenUp(s, i, payload, log) then log + [DecodeIdentity(payload, NONCE_BYTES).value.2] else log, 256)
    ensures NewSigning(s, i, payload, signature) ==
              if TakenUp(s, i, payload, log) && signature.Some?
              then var (id, _, nonce) := DecodeIdentity(payload, NONCE_BYTES).value;
                   [Signing(s.sessions[i].o.nodeId, i, s.sessions[i].link.hs.ownNonce, id, nonce)]
              else []
  {
    hide HandleHello, AuthMessage, DecodeIdentity, LastOf, Remember;
    var x := s.sessions[i];
    HelloAnsweredExactly(x.link, x.o, payload, StoreOf(s, x.o.nodeId), _ => signature);
    if TakenUp(s, i, payload, log) { RememberLast(log, DecodeIdentity(payload, NONCE_BYTES).value.2); }
  }

  lemma StepRemembers(s: System, step: Step, keyOf: Id -> Bytes, i: nat, log: seq<Bytes>)
    requires Enabled(s, step, keyOf) && Remembers(s, i, log)
    ensures Remembers(Next(s, step, keyOf), i,
                      if step.HelloAt? && step.i == i && i < |s.sessions| && TakenUp(s, i, step.payload, log)
                      then log + [DecodeIdentity(step.payload, NONCE_BYTES).value.2] else log)
  {
    hide HandleHello, HandleHelloAuth, Disconnect, Recheck, AfterFrame, Attach, Signed, TakenUp, LastOf, DecodeIdentity;
    match step
    case AttachAt(j, nonce) =>
      OthersRemember(s.sessions[j], [], [], false, Frame(Ping, 0, []), ProtocolError, StoreOf(s, []), nonce,
                     StoreOf(s, s.sessions[j].o.nodeId).epoch);
    case HelloAt(j, payload, signature) => if j == i { HelloRemembers(s, i, payload, signature, keyOf, log); }
    case AuthAt(j, payload, accepted) =>
      OthersRemember(s.sessions[j], payload, NeighborKey(StoreOf(s, s.sessions[j].o.nodeId).neighbors, s.sessions[j].link.hs.peerId),
                     accepted, Frame(Ping, 0, []), ProtocolError, StoreOf(s, []), [], 0);
    case FrameAt(j, f) => OthersRemember(s.sessions[j], [], [], false, f, ProtocolError, StoreOf(s, []), [], 0);
    case LoseAt(j, error) => OthersRemember(s.sessions[j], [], [], false, Frame(Ping, 0, []), error, StoreOf(s, []), [], 0);
    case RecheckAt(j, trust) => OthersRemember(s.sessions[j], [], [], false, Frame(Ping, 0, []), ProtocolError, trust, [], 0);
    case Open(_) => NoneTaken();
    case _ =>
  }

  lemma NoneTaken()
    ensures LastOf<Bytes>([], 256) == []
  {}

  lemma {:induction false} RunRemembers(states: seq<System>, steps: seq<Step>, keyOf: Id -> Bytes, k: nat, i: nat)
    requires Run(states, steps, keyOf) && k < |states|
    ensures Remembers(states[k], i, NoncesTaken(states, steps, i, k))
  {
    hide TakenUp, Next, Enabled, LastOf, DecodeIdentity;
    if k > 0 {
      RunRemembers(states, steps, keyOf, k - 1, i);
      StepRemembers(states[k - 1], steps[k - 1], keyOf, i, NoncesTaken(states, steps, i, k - 1));
    }
  }

  /**
   * Over every run a node's key is used exactly for challenges from a trusted
   * node other than itself, the expected one if there is one, whose nonce is not
   * among the last 256 the link took up; and it signs exactly the two challenges.
   */
  lemma SignsExactly(states: seq<System>, steps: seq<Step>, keyOf: Id -> Bytes, k: nat)
    requires Run(states, steps, keyOf) && k < |steps|
    ensures states[k + 1].log == states[k].log +
              match steps[k]
              case HelloAt(i, payload, signature) =>
                if i < |states[k].sessions| && TakenUp(states[k], i, payload, NoncesTaken(states, steps, i, k)) && signature.Some?
                then var x, (id, _, nonce) := states[k].sessions[i], DecodeIdentity(payload, NONCE_BYTES).value;
                     [Signing(x.o.nodeId, i, x.link.hs.ownNonce, id, nonce)]
                else []
              case _ => []
  {
    hide HandleHello, HandleHelloAuth, Disconnect, Recheck, AfterFrame, Attach, Signed, TakenUp, LastOf, DecodeIdentity, NoncesTaken, NewSigning;
    match steps[k]
    case HelloAt(i, payload, signature) =>
      RunRemembers(states, steps, keyOf, k, i);
      HelloRemembers(states[k], i, payload, signature, keyOf, NoncesTaken(states, steps, i, k));
    case _ => assert states[k].log + [] == states[k].log;
  }

  // ---------------------------------------------------------------- when nonces never repeat

  /** Each signing of a live session is the one of its current connection. */
  ghost predicate Current(x: Session, j: nat, e: Signing) {
    x.link.connected && x.link.hs.ownNonce == e.ownNonce ==>
      j == e.session && !x.link.hs.auth.AwaitChallenge? && x.link.hs.peerId == e.peerId && x.link.hs.peerNonce == e.peerNonce
  }

  ghost predicate FreshInv(s: System) {
    && (forall j :: 0 <= j < |s.sessions| && s.sessions[j].link.connected ==> s.sessions[j].link.hs.ownNonce in s.drawn)
    && (forall i, j :: 0 <= i < j < |s.sessions| && s.sessions[i].link.connected && s.sessions[j].link.connected ==>
          s.sessions[i].link.hs.ownNonce != s.sessions[j].link.hs.ownNonce)
    && (forall n :: 0 <= n < |s.log| ==> s.log[n].ownNonce in s.drawn && s.log[n].session < |s.sessions|)
    && (forall n, j :: 0 <= n < |s.log| && 0 <= j < |s.sessions| ==> Current(s.sessions[j], j, s.log[n]))
    && (forall m, n :: 0 <= m < n < |s.log| ==> s.log[m].ownNonce != s.log[n].ownNonce)
  }

  /** A link that stays connected keeps its challenges and does not go back to awaiting one. */
  ghost predicate SameConnection(a: Link, b: Link) {
    b.connected ==>
      && a.connected && b.hs.ownNonce == a.hs.ownNonce && b.hs.peerId == a.hs.peerId && b.hs.peerNonce == a.hs.peerNonce
      && (b.hs.auth.AwaitChallenge? ==> a.hs.auth.AwaitChallenge?)
  }

  lemma SameConnectionFresh(s: System, i: nat, l: Link)
    requires FreshInv(s) && i < |s.sessions| && SameConnection(s.sessions[i].link, l)
    ensures FreshInv(WithLink(s, i, l))
  {
    var t := WithLink(s, i, l);
    forall n, j | 0 <= n < |t.log| && 0 <= j < |t.sessions| ensures Current(t.sessions[j], j, t.log[n]) {
      assert Current(s.sessions[j], j, s.log[n]);
    }
  }

  lemma AttachFresh(s: System, i: nat, nonce: Bytes, keyOf: Id -> Bytes)
    requires Inv(s, keyOf) && FreshInv(s) && Enabled(s, AttachAt(i, nonce), keyOf) && nonce !in s.drawn
    ensures FreshInv(Next(s, AttachAt(i, nonce), keyOf))
  {
    hide HelloFrame, CompleteAll;
    var x := s.sessions[i];
    assert SessionInv(x, s.log, s.corrupt);
    var l := Attach(x.link, x.o, nonce, StoreOf(s, x.o.nodeId).epoch);
    assert l.connected ==> l.hs.ownNonce == nonce;
    var t := Next(s, AttachAt(i, nonce), keyOf);
    assert forall m :: m in s.drawn ==> m in t.drawn;
    assert nonce in t.drawn;
    forall n, j | 0 <= n < |t.log| && 0 <= j < |t.sessions| ensures Current(t.sessions[j], j, t.log[n]) {
      assert Current(s.sessions[j], j, s.log[n]);
    }
  }

  lemma HelloFresh(s: System, i: nat, payload: Bytes, signature: Option<Bytes>, keyOf: Id -> Bytes)
    requires Inv(s, keyOf) && FreshInv(s) && Enabled(s, HelloAt(i, payload, signature), keyOf)
    ensures FreshInv(Next(s, HelloAt(i, payload, signature), keyOf))
  {
    hide HandleHello, Inv;
    HelloSigns(s, i, payload, signature, keyOf);
    var more := NewSigning(s, i, payload, signature);
    var x, l := s.sessions[i], HelloResult(s, i, payload, signature).0;
    var t := Next(s, HelloAt(i, payload, signature), keyOf);
    if more == [] {
      assert t == WithLink(s, i, l);
      SameConnectionFresh(s, i, l);
    } else {
      HelloSignsFresh(s, i, l, more);
    }
  }

  /** A session signs once per connection, for the challenge it then holds. */
  lemma HelloSignsFresh(s: System, i: nat, l: Link, more: seq<Signing>)
    requires FreshInv(s) && i < |s.sessions| && |more| == 1 && more[0].session == i
    requires s.sessions[i].link.connected && s.sessions[i].link.hs.auth.AwaitChallenge?
    requires more[0].ownNonce == s.sessions[i].link.hs.ownNonce
    requires l.connected ==> l.hs == Handshake(AwaitResponse, more[0].ownNonce, more[0].peerId, more[0].peerNonce)
    ensures FreshInv(WithLink(s, i, l).(log := s.log + more))
  {
    var x, t := s.sessions[i], WithLink(s, i, l).(log := s.log + more);
    forall n | 0 <= n < |s.log| ensures s.log[n].ownNonce != x.link.hs.ownNonce {
      assert Current(x, i, s.log[n]);
    }
    forall n, j | 0 <= n < |t.log| && 0 <= j < |t.sessions| ensures Current(t.sessions[j], j, t.log[n]) {
      if n < |s.log| { assert t.log[n] == s.log[n] && Current(s.sessions[j], j, s.log[n]); }
    }
  }

  lemma OpenFresh(s: System, o: Options)
    requires FreshInv(s)
    ensures FreshInv(s.(sessions := s.sessions + [Session(o, FRESH)]))
  {
    var t := s.(sessions := s.sessions + [Session(o, FRESH)]);
    forall n, j | 0 <= n < |t.log| && 0 <= j < |t.sessions| ensures Current(t.sessions[j], j, t.log[n]) {
      if j < |s.sessions| { assert Current(s.sessions[j], j, s.log[n]); }
    }
  }

  /** Only attaching changes which connection a link is on. */
  lemma SameConnections(x: Session, payload: Bytes, key: Bytes, accepted: bool, f: Frame, error: Errc, trust: Snapshot)
    ensures SameConnection(x.link, Disconnect(x.link, x.o, error))
    ensures SameConnection(x.link, HandleHelloAuth(x.link, x.o, payload, key, (_, _, _) => accepted))
    ensures SameConnection(x.link, AfterFrame(x, f))
    ensures SameConnection(x.link, Recheck(x.link, x.o, trust))
  {
    hide AuthMessage, DecodeIdentity, CompleteAll, Complete, Trusts;
  }

  lemma StepFresh(s: System, step: Step, keyOf: Id -> Bytes)
    requires Inv(s, keyOf) && FreshInv(s) && Enabled(s, step, keyOf)
    requires step.AttachAt? ==> step.nonce !in s.drawn
    ensures FreshInv(Next(s, step, keyOf))
  {
    hide Inv, HandleHello, HandleHelloAuth, Disconnect, Recheck, AfterFrame, Attach, Signed, FreshInv;
    match step
    case Open(o) => OpenFresh(s, o);
    case AttachAt(i, nonce) => AttachFresh(s, i, nonce, keyOf);
    case HelloAt(i, payload, signature) => HelloFresh(s, i, payload, signature, keyOf);
    case AuthAt(i, payload, accepted) =>
      var x := s.sessions[i];
      var key := NeighborKey(StoreOf(s, x.o.nodeId).neighbors, x.link.hs.peerId);
      SameConnections(x, payload, key, accepted, Frame(Ping, 0, []), ProtocolError, StoreOf(s, []));
      SameConnectionFresh(s, i, HandleHelloAuth(x.link, x.o, payload, key, (_, _, _) => accepted));
    case FrameAt(i, f) =>
      SameConnections(s.sessions[i], [], [], false, f, ProtocolError, StoreOf(s, []));
      SameConnectionFresh(s, i, AfterFrame(s.sessions[i], f));
    case LoseAt(i, error) =>
      SameConnections(s.sessions[i], [], [], false, Frame(Ping, 0, []), error, StoreOf(s, []));
      SameConnectionFresh(s, i, Disconnect(s.sessions[i].link, s.sessions[i].o, error));
    case RecheckAt(i, trust) =>
      SameConnections(s.sessions[i], [], [], false, Frame(Ping, 0, []), ProtocolError, trust);
      SameConnectionFresh(s, i, Recheck(s.sessions[i].link, s.sessions[i].o, trust));
    case StopAt(i) => SameConnectionFresh(s, i, s.sessions[i].link.(stopped := true));
    case Install(node, trust) => InstallFresh(s, node, trust);
  }

  lemma InstallFresh(s: System, node: Id, trust: Snapshot)
    requires FreshInv(s)
    ensures FreshInv(s.(stores := s.stores[node := trust]))
  {}

  lemma {:induction false} RunFresh(states: seq<System>, steps: seq<Step>, keyOf: Id -> Bytes, k: nat)
    requires Run(states, steps, keyOf) && KeysIdentify(keyOf) && k < |states| && Distinct(states[k].drawn)
    ensures FreshInv(states[k])
  {
    if k > 0 {
      var s, step := states[k - 1], steps[k - 1];
      assert states[k] == Next(s, step, keyOf);
      assert s.drawn <= states[k].drawn;
      assert Distinct(s.drawn);
      RunFresh(states, steps, keyOf, k - 1);
      RunInv(states, steps, keyOf, k - 1);
      if step.AttachAt? { assert states[k].drawn[|s.drawn|] == step.nonce; }
      StepFresh(s, step, keyOf);
    }
  }

  /**
   * With nonces that never repeat, agreement is one to one: the matching
   * signing is unique, no two ready links share it, and while the peer's
   * session that made it is on that connection, it is in a handshake with this
   * node, holding this link's nonce.
   */
  lemma OneToOne(states: seq<System>, steps: seq<Step>, keyOf: Id -> Bytes, k: nat, i: nat, n: nat)
    requires Run(states, steps, keyOf) && KeysIdentify(keyOf) && k < |states| && Distinct(states[k].drawn)
    requires i < |states[k].sessions| && states[k].sessions[i].link.ready
    requires n < |states[k].log| && Matches(states[k].sessions[i], states[k].log[n])
    ensures var s := states[k];
            && (forall m :: 0 <= m < |s.log| && Matches(s.sessions[i], s.log[m]) ==> m == n)
            && (forall j :: 0 <= j < |s.sessions| && s.sessions[j].link.ready && Matches(s.sessions[j], s.log[n]) ==> j == i)
    ensures var s := states[k];
            var j := s.log[n].session;
            && j < |s.sessions|
            && (s.sessions[j].link.connected && s.sessions[j].link.hs.ownNonce == s.log[n].ownNonce ==>
                  && s.sessions[j].link.hs.peerId == s.sessions[i].o.nodeId
                  && s.sessions[j].link.hs.peerNonce == s.sessions[i].link.hs.ownNonce
                  && (s.sessions[j].link.ready ==> s.sessions[j].link.peer == s.sessions[i].o.nodeId))
  {
    RunInv(states, steps, keyOf, k);
    RunFresh(states, steps, keyOf, k);
    var s := states[k];
    assert SessionInv(s.sessions[i], s.log, s.corrupt);
    forall j | 0 <= j < |s.sessions| && s.sessions[j].link.ready && Matches(s.sessions[j], s.log[n]) ensures j == i {
      assert SessionInv(s.sessions[j], s.log, s.corrupt);
    }
    var j := s.log[n].session;
    assert SessionInv(s.sessions[j], s.log, s.corrupt);
    assert Current(s.sessions[j], j, s.log[n]);
  }
}
