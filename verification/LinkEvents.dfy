/**
 * What a link tells its application and its peer, over every run: when it is up,
 * why it is down, what came in meanwhile, and which frames go out.
 */
module LinkEvents {
  import opened ByteCodec
  import opened LinkCodec
  import opened Trust
  import opened Link
  import opened LinkRequests

  // ---------------------------------------------------------------- what each step tells

  /** Why a frame takes down a link that is not yet established, if it does. */
  function Unfit(l: Link, o: Options, f: Frame, trust: Snapshot, c: Credentials): Option<Errc> {
    if !o.authenticated then
      if f.kind.HelloAuth? || f.kind.EpochConfig? then Some(ProtocolError)
      else if f.kind.Hello? && f.payload != [] && (o.expectedPeer == [] || f.payload == o.expectedPeer) then None
      else Some(PermissionDenied)
    else if f.kind.Hello? then UnfitChallenge(l, o, f.payload, trust, c)
    else if f.kind.HelloAuth? then UnfitResponse(l, o, f.payload, trust, c)
    else if f.kind.EpochConfig? then Some(ProtocolError)
    else Some(PermissionDenied)
  }

  /** A challenge out of turn or malformed, from a node not welcome or repeated, one the key cannot sign, or whose answer does not fit. */
  function UnfitChallenge(l: Link, o: Options, payload: Bytes, trust: Snapshot, c: Credentials): Option<Errc> {
    if !l.hs.auth.AwaitChallenge? || DecodeIdentity(payload, NONCE_BYTES).None? then Some(ProtocolError)
    else
      var (id, _, nonce) := DecodeIdentity(payload, NONCE_BYTES).value;
      var signature := c.sign(AuthMessage(o.nodeId, l.hs.ownNonce, id, nonce));
      if !Welcome(o, trust, id) || nonce in l.seenNonces then Some(PermissionDenied)
      else if signature.None? then Some(NotPermitted)
      else if |signature.value| == SIGNATURE_BYTES && |l.writes| < o.maxQueued
              && 10 + |EncodeIdentity(o.nodeId, trust.epoch, signature.value)| <= o.maxFrameBytes then None
      else Some(NoBufferSpace)
  }

  /** A response out of turn or malformed, or not the challenger's signature of both challenges. */
  function UnfitResponse(l: Link, o: Options, payload: Bytes, trust: Snapshot, c: Credentials): Option<Errc> {
    if !l.hs.auth.AwaitResponse? || DecodeIdentity(payload, SIGNATURE_BYTES).None? then Some(ProtocolError)
    else
      var (id, _, signature) := DecodeIdentity(payload, SIGNATURE_BYTES).value;
      var message := AuthMessage(l.hs.peerId, l.hs.peerNonce, o.nodeId, l.hs.ownNonce);
      if id == l.hs.peerId && c.verify(NeighborKey(trust.neighbors, l.hs.peerId), message, signature) then None
      else Some(PermissionDenied)
  }

  function FrameTells(l: Link, o: Options, f: Frame, trust: Snapshot, c: Credentials): seq<Event> {
    var error := if l.ready then Fatal(l, o, f) else Unfit(l, o, f, trust, c);
    if error.Some? then [Down(error.value)]
    else if !l.ready then (if o.authenticated && f.kind.Hello? then [] else [Up])
    else if f.kind.Request? then [Handed(f)]
    else if f.kind.Notify? then [Handed(Frame(Notify, 0, f.payload))]
    else []
  }

  /** The peer a trust change is about has been revoked. */
  predicate Revoked(l: Link, o: Options, trust: Snapshot) {
    var target := if l.peer != [] then l.peer else o.expectedPeer;
    !l.stopped && target != [] && target != o.nodeId && !Trusts(trust.neighbors, target)
  }

  /** What the step tells the application. */
  function Tells(s: System, step: Step, o: Options): seq<Event> {
    var l := s.link;
    match step
    case Receive(f, trust, _, c) => FrameTells(l, o, f, trust, c)
    case Lose(error) => if l.connected then [Down(error)] else []
    case Reattach(nonce, epoch) =>
      if !l.stopped && (10 + |HelloFrame(o, nonce, epoch).payload| > o.maxFrameBytes || o.maxQueued == 0) then [Down(NoBufferSpace)] else []
    case TrustChange(trust) => if l.connected && Revoked(l, o, trust) then [Down(PermissionDenied)] else []
    case RunStop => if l.connected then [Down(OperationCanceled)] else []
    case _ => []
  }

  /** The link after telling this: still as ready as before, up, down, or up as it was. */
  ghost predicate Follows(l: Link, told: seq<Event>, r: Link) {
    && r.events == l.events + told && |told| <= 1
    && (told == [] ==> r.ready == l.ready)
    && (told == [Up] ==> !l.ready && r.ready)
    && (told != [] && told[0].Down? ==> !r.ready)
    && (told != [] && told[0].Handed? ==> l.ready && r.ready)
  }

  lemma DownFollows(l: Link, m: Link, o: Options, e: Errc)
    requires l.connected && m.connected && m.events == l.events
    ensures Follows(l, [Down(e)], Disconnect(m, o, e))
  {
    hide CompleteAll;
  }

  lemma PlainFollows(l: Link, o: Options, f: Frame)
    requires l.connected && l.ready && !f.kind.Hello? && !f.kind.HelloAuth? && !f.kind.EpochConfig?
    ensures var error := Fatal(l, o, f);
            Follows(l, if error.Some? then [Down(error.value)]
                       else if f.kind.Request? then [Handed(f)]
                       else if f.kind.Notify? then [Handed(Frame(Notify, 0, f.payload))] else [], HandlePlain(l, o, f))
  {
    DownFollows(l, l, o, NoBufferSpace);
    hide Disconnect, Complete, DecodeUpdate;
  }

  lemma HelloFollows(l: Link, o: Options, payload: Bytes, trust: Snapshot, c: Credentials)
    requires LinkInv(l, o) && l.connected
    ensures var error := if l.ready then Some(ProtocolError) else UnfitChallenge(l, o, payload, trust, c);
            Follows(l, if error.Some? then [Down(error.value)] else [], HandleHello(l, o, payload, trust, c.sign).0)
  {
    hide Disconnect, DecodeIdentity, AuthMessage, EncodeIdentity, Remember, Follows;
    DownFollows(l, l, o, ProtocolError);
    DownFollows(l, l, o, PermissionDenied);
    if l.hs.auth.AwaitChallenge? && DecodeIdentity(payload, NONCE_BYTES).Some? {
      var (id, _, nonce) := DecodeIdentity(payload, NONCE_BYTES).value;
      var m := l.(seenNonces := Remember(l.seenNonces, nonce), hs := Handshake(AwaitResponse, l.hs.ownNonce, id, nonce));
      DownFollows(l, m, o, NotPermitted);
      DownFollows(l, m, o, NoBufferSpace);
      var signature := c.sign(AuthMessage(o.nodeId, l.hs.ownNonce, id, nonce));
      if signature.Some? {
        Quiet(l, m.(writes := l.writes + [Frame(HelloAuth, 0, EncodeIdentity(o.nodeId, trust.epoch, signature.value))]));
      }
    }
  }

  lemma Quiet(l: Link, r: Link)
    requires r.events == l.events && r.ready == l.ready
    ensures Follows(l, [], r)
  {}

  lemma ResponseFollows(l: Link, o: Options, payload: Bytes, trust: Snapshot, c: Credentials)
    requires LinkInv(l, o) && l.connected
    ensures var error := if l.ready then Some(ProtocolError) else UnfitResponse(l, o, payload, trust, c);
            Follows(l, [if error.Some? then Down(error.value) else Up],
                    HandleHelloAuth(l, o, payload, NeighborKey(trust.neighbors, l.hs.peerId), c.verify))
  {
    hide Disconnect, DecodeIdentity, AuthMessage;
    DownFollows(l, l, o, ProtocolError);
    DownFollows(l, l, o, PermissionDenied);
  }

  lemma UpdateFollows(l: Link, o: Options, payload: Bytes, controllerKey: Bytes, c: Credentials)
    requires LinkInv(l, o) && l.connected
    ensures Follows(l, if l.ready && DecodeUpdate(payload).Some? then [] else [Down(ProtocolError)],
                    HandleEpochConfig(l, o, payload, controllerKey, c).0)
  {
    hide Disconnect, DecodeUpdate;
    DownFollows(l, l, o, ProtocolError);
  }

  lemma UnauthenticatedFollows(l: Link, o: Options, f: Frame, trust: Snapshot, c: Credentials)
    requires LinkInv(l, o) && l.connected && !o.authenticated
    ensures Follows(l, FrameTells(l, o, f, trust, c), HandleUnauthenticated(l, o, f))
  {
    hide Disconnect, HandlePlain, DecodeUpdate;
    DownFollows(l, l, o, ProtocolError);
    DownFollows(l, l, o, PermissionDenied);
    if l.ready && !f.kind.Hello? && !f.kind.HelloAuth? && !f.kind.EpochConfig? { PlainFollows(l, o, f); }
  }

  lemma FrameFollows(l: Link, o: Options, f: Frame, trust: Snapshot, controllerKey: Bytes, c: Credentials)
    requires LinkInv(l, o) && l.connected
    ensures Follows(l, FrameTells(l, o, f, trust, c), HandleFrame(l, o, f, trust, controllerKey, c))
  {
    hide Disconnect, HandlePlain, HandleHello, HandleHelloAuth, HandleEpochConfig, HandleUnauthenticated, Follows, UnfitChallenge, UnfitResponse;
    if !o.authenticated {
      UnauthenticatedFollows(l, o, f, trust, c);
    } else if f.kind.Hello? {
      HelloFollows(l, o, f.payload, trust, c);
    } else if f.kind.HelloAuth? {
      ResponseFollows(l, o, f.payload, trust, c);
    } else if f.kind.EpochConfig? {
      UpdateFollows(l, o, f.payload, controllerKey, c);
    } else if l.ready {
      PlainFollows(l, o, f);
    } else {
      DownFollows(l, l, o, PermissionDenied);
    }
  }

  lemma AttachFollows(l: Link, o: Options, nonce: Bytes, epoch: U64)
    requires LinkInv(l, o) && !l.connected
    ensures Follows(l, if !l.stopped && (10 + |HelloFrame(o, nonce, epoch).payload| > o.maxFrameBytes || o.maxQueued == 0)
                       then [Down(NoBufferSpace)] else [], Attach(l, o, nonce, epoch))
  {
    hide CompleteAll, HelloFrame;
  }

  lemma StepFollows(s: System, step: Step, o: Options)
    requires Inv(s, o) && Enabled(s, step)
    ensures Follows(s.link, Tells(s, step, o), Next(s, step, o).link)
  {
    hide HandleFrame, FrameTells, CompleteAll, Complete, InsertId, Trusts, Located;
    var l := s.link;
    match step
    case Receive(f, trust, key, c) => FrameFollows(l, o, f, trust, key, c);
    case Reattach(nonce, epoch) => AttachFollows(l, o, nonce, epoch);
    case _ =>
  }

  // ---------------------------------------------------------------- over all runs

  /** What the steps before `k` told, in order. */
  function ToldBy(states: seq<System>, steps: seq<Step>, o: Options, k: nat): seq<Event>
    requires k <= |steps| <= |states|
  {
    if k == 0 then [] else ToldBy(states, steps, o, k - 1) + Tells(states[k - 1], steps[k - 1], o)
  }

  /** Over every run the application has been told exactly what the steps so far told it, in order. */
  lemma {:induction false} EventsExactly(states: seq<System>, steps: seq<Step>, o: Options, k: nat)
    requires Run(states, steps, o) && k < |states|
    ensures states[k].link.events == ToldBy(states, steps, o, k)
  {
    hide Next, Enabled, Inv, Tells;
    if k > 0 {
      EventsExactly(states, steps, o, k - 1);
      RunInv(states, steps, o, k - 1);
      StepFollows(states[k - 1], steps[k - 1], o);
    }
  }

  /** Whether the last the application heard of the link's state was that it is up. */
  predicate HeardUp(events: seq<Event>) {
    if events == [] then false
    else
      var last := events[|events| - 1];
      if last.Handed? then HeardUp(events[..|events| - 1]) else last.Up?
  }

  /** The link is announced up only when it was not, and hands something over only while it is. */
  predicate Bracketed(events: seq<Event>) {
    events == [] ||
    var before, last := events[..|events| - 1], events[|events| - 1];
    Bracketed(before) && (last.Up? ==> !HeardUp(before)) && (last.Handed? ==> HeardUp(before))
  }

  /**
   * Over every run, authenticated or not: the application last heard that the
   * link is up exactly when it is ready, and requests and notifications reach it
   * only between an announcement that the link is up and the next that it is down.
   */
  lemma {:induction false} HandedWhileUp(states: seq<System>, steps: seq<Step>, o: Options, k: nat)
    requires Run(states, steps, o) && k < |states|
    ensures HeardUp(states[k].link.events) == states[k].link.ready && Bracketed(states[k].link.events)
  {
    hide Next, Enabled, Inv, Tells;
    if k > 0 {
      HandedWhileUp(states, steps, o, k - 1);
      RunInv(states, steps, o, k - 1);
      StepFollows(states[k - 1], steps[k - 1], o);
      var told := Tells(states[k - 1], steps[k - 1], o);
      var before, after := states[k - 1].link.events, states[k].link.events;
      if told == [] {
        assert after == before;
      } else {
        assert after[..|after| - 1] == before;
      }
    }
  }

  // ---------------------------------------------------------------- what goes out

  /** The frames the step queues for the peer. */
  function Queues(s: System, step: Step, o: Options): seq<Frame> {
    var l := s.link;
    match step
    case RunTask(i) =>
      if i < |s.tasks| && RefusedBy(l, o, s.tasks[i].payload).None? then [Frame(Request, s.tasks[i].id, s.tasks[i].payload)] else []
    case Receive(f, trust, _, c) =>
      if l.ready then (if f.kind.Ping? && Fatal(l, o, f).None? then [Frame(Pong, 0, [])] else [])
      else if o.authenticated && f.kind.Hello? && UnfitChallenge(l, o, f.payload, trust, c).None? then
        var (id, _, nonce) := DecodeIdentity(f.payload, NONCE_BYTES).value;
        [Frame(HelloAuth, 0, EncodeIdentity(o.nodeId, trust.epoch, c.sign(AuthMessage(o.nodeId, l.hs.ownNonce, id, nonce)).value))]
      else []
    case Reattach(nonce, epoch) =>
      if Tells(s, step, o) != [] then []
      else [Frame(Hello, 0, if o.authenticated then EncodeIdentity(o.nodeId, epoch, nonce) else o.nodeId)]
    case _ => []
  }

  /** A new connection starts with an empty queue. */
  predicate Renews(s: System, step: Step) { step.Reattach? && !s.link.stopped }

  lemma HelloQueues(l: Link, o: Options, payload: Bytes, trust: Snapshot, c: Credentials)
    requires LinkInv(l, o) && l.connected
    ensures var r := HandleHello(l, o, payload, trust, c.sign).0;
            r.connected ==> !l.ready && UnfitChallenge(l, o, payload, trust, c).None?
                            && var (id, _, nonce) := DecodeIdentity(payload, NONCE_BYTES).value;
                               var signature := c.sign(AuthMessage(o.nodeId, l.hs.ownNonce, id, nonce));
                               r.writes == l.writes + [Frame(HelloAuth, 0, EncodeIdentity(o.nodeId, trust.epoch, signature.value))]
  {
    hide DecodeIdentity, AuthMessage, EncodeIdentity, Remember, CompleteAll;
  }

  lemma UnauthenticatedQueues(l: Link, o: Options, f: Frame)
    requires LinkInv(l, o) && l.connected
    ensures var r := HandleUnauthenticated(l, o, f);
            r.connected ==> r.writes == l.writes + if l.ready && f.kind.Ping? then [Frame(Pong, 0, [])] else []
  {
    hide Complete, CompleteAll;
  }

  lemma PlainQueues(l: Link, o: Options, f: Frame)
    requires l.connected
    ensures var r := HandlePlain(l, o, f);
            r.connected ==> r.writes == l.writes + if f.kind.Ping? then [Frame(Pong, 0, [])] else []
  {
    hide Complete, CompleteAll;
  }

  lemma PingFits(l: Link, o: Options, f: Frame, trust: Snapshot, controllerKey: Bytes, c: Credentials)
    requires LinkInv(l, o) && l.connected && l.ready && HandleFrame(l, o, f, trust, controllerKey, c).connected
    ensures f.kind.Ping? ==> Fatal(l, o, f).None?
  {
    hide Complete, CompleteAll, DecodeIdentity, DecodeUpdate, AuthMessage, EncodeIdentity;
  }

  lemma FrameQueues(s: System, o: Options, f: Frame, trust: Snapshot, controllerKey: Bytes, c: Credentials)
    requires LinkInv(s.link, o) && s.link.connected
    ensures var r := HandleFrame(s.link, o, f, trust, controllerKey, c);
            r.connected ==> r.writes == s.link.writes + Queues(s, Receive(f, trust, controllerKey, c), o)
  {
    var l := s.link;
    if HandleFrame(l, o, f, trust, controllerKey, c).connected {
      if l.ready { PingFits(l, o, f, trust, controllerKey, c); }
      hide HandleHello, HandleHelloAuth, HandleEpochConfig, HandleUnauthenticated, HandlePlain, UnfitChallenge, Fatal;
      if !o.authenticated {
        UnauthenticatedQueues(l, o, f);
      } else if f.kind.Hello? {
        HelloQueues(l, o, f.payload, trust, c);
      } else if f.kind.HelloAuth? {
        ResponseQueues(l, o, f.payload, NeighborKey(trust.neighbors, l.hs.peerId), c);
      } else if f.kind.EpochConfig? {
        UpdateQueues(l, o, f.payload, controllerKey, c);
      } else {
        PlainQueues(l, o, f);
      }
    }
  }

  lemma ResponseQueues(l: Link, o: Options, payload: Bytes, key: Bytes, c: Credentials)
    ensures var r := HandleHelloAuth(l, o, payload, key, c.verify); r.connected ==> r.writes == l.writes
  {
    hide DecodeIdentity, AuthMessage, CompleteAll;
  }

  lemma UpdateQueues(l: Link, o: Options, payload: Bytes, controllerKey: Bytes, c: Credentials)
    ensures var r := HandleEpochConfig(l, o, payload, controllerKey, c).0; r.connected ==> r.writes == l.writes
  {
    hide DecodeUpdate, CompleteAll;
  }

  lemma AttachQueues(s: System, o: Options, nonce: Bytes, epoch: U64)
    requires LinkInv(s.link, o) && !s.link.connected
    ensures var r := Attach(s.link, o, nonce, epoch); r.connected ==> !s.link.stopped && r.writes == Queues(s, Reattach(nonce, epoch), o)
  {
    hide CompleteAll, EncodeIdentity;
  }

  lemma TaskQueues(l: Link, o: Options, id: U64, payload: Bytes)
    requires LinkInv(l, o)
    ensures var r := RunRequest(l, o, id, payload);
            r.connected == l.connected
            && r.writes == l.writes + if RefusedBy(l, o, payload).None? then [Frame(Request, id, payload)] else []
  {
    hide Complete, InsertId;
  }

  lemma StepQueues(s: System, step: Step, o: Options)
    requires Inv(s, o) && Enabled(s, step) && Next(s, step, o).link.connected
    ensures Renews(s, step) || s.link.connected
    ensures Next(s, step, o).link.writes ==
              (if Renews(s, step) then [] else if step.Written? then s.link.writes[1..] else s.link.writes) + Queues(s, step, o)
  {
    hide HandleFrame, RunRequest, Attach, CompleteAll, Complete, Trusts, Located, LinkInv, Unfit, UnfitChallenge, Fatal, RefusedBy, Tells;
    var l := s.link;
    match step
    case Receive(f, trust, key, c) => FrameQueues(s, o, f, trust, key, c);
    case Reattach(nonce, epoch) => AttachQueues(s, o, nonce, epoch);
    case RunTask(i) => TaskQueues(l, o, s.tasks[i].id, s.tasks[i].payload);
    case _ =>
  }

  /** The frames queued on the current connection, in order. */
  function Outbox(states: seq<System>, steps: seq<Step>, o: Options, k: nat): seq<Frame>
    requires k <= |steps| <= |states|
  {
    if k == 0 then []
    else (if Renews(states[k - 1], steps[k - 1]) then [] else Outbox(states, steps, o, k - 1)) + Queues(states[k - 1], steps[k - 1], o)
  }

  /** How many frames of the current connection have been written. */
  function Gone(states: seq<System>, steps: seq<Step>, k: nat): nat
    requires k <= |steps| <= |states|
  {
    if k == 0 || Renews(states[k - 1], steps[k - 1]) then 0
    else Gone(states, steps, k - 1) + if steps[k - 1].Written? then 1 else 0
  }

  /**
   * Over every run a connected link's queue is what its connection was asked to
   * carry and has not been written: the hello, a response to each challenge
   * taken up, a pong for each ping, and each admitted request with its id and
   * payload, in that order of events and nothing else.
   */
  lemma {:induction false} QueueExactly(states: seq<System>, steps: seq<Step>, o: Options, k: nat)
    requires Run(states, steps, o) && k < |states| && states[k].link.connected
    ensures var n := Gone(states, steps, k);
            n <= |Outbox(states, steps, o, k)| && states[k].link.writes == Outbox(states, steps, o, k)[n..]
  {
    hide Enabled, Inv, Queues, Renews, LinkInv, Next;
    if k > 0 {
      var s, step := states[k - 1], steps[k - 1];
      RunInv(states, steps, o, k - 1);
      StepQueues(s, step, o);
      if !Renews(s, step) {
        QueueExactly(states, steps, o, k - 1);
        WrittenOne(s, step);
        Carried(Outbox(states, steps, o, k - 1), Gone(states, steps, k - 1), if step.Written? then 1 else 0,
                s.link.writes, Queues(s, step, o));
      }
    }
  }

  lemma Carried(box: seq<Frame>, n: nat, d: nat, writes: seq<Frame>, more: seq<Frame>)
    requires n <= |box| && writes == box[n..] && d <= |writes|
    ensures n + d <= |box| && (box + more)[n + d..] == writes[d..] + more && (d == 0 ==> writes[d..] == writes)
  {
    assert writes[d..] == box[n + d..];
  }

  lemma WrittenOne(s: System, step: Step)
    requires Enabled(s, step)
    ensures step.Written? ==> s.link.writes != []
  {}
}
