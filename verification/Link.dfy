/** One link: handshake, request table, write queue and the ways it goes down. */
module Link {
  import opened ByteCodec
  import opened LinkCodec
  import opened Trust

  datatype Auth = AwaitChallenge | AwaitResponse | Done

  datatype Errc =
    | OperationCanceled | NotConnected | NoBufferSpace | MessageSize | TimedOut
    | PermissionDenied | ProtocolError | NotPermitted | EndOfStream

  datatype Reply = Answer(payload: Bytes) | Failed(error: Errc)

  /** A completion posted to the executor: which request, and how it ended. */
  datatype Completion = Completion(id: U64, reply: Reply)

  datatype Options = Options(
    nodeId: Id, expectedPeer: Id, maxFrameBytes: nat, maxPending: nat, maxQueued: nat,
    authenticated: bool, client: bool)

  /** What the constructor insists on. */
  predicate ValidOptions(o: Options) {
    && o.nodeId != [] && 10 <= o.maxFrameBytes < 0x1_0000_0000
    && |o.nodeId| <= o.maxFrameBytes - 10 && o.maxPending > 0 && o.maxQueued > 0
  }

  /** The handshake of the current connection: own nonce sent, peer's challenge received. */
  datatype Handshake = Handshake(auth: Auth, ownNonce: Bytes, peerId: Id, peerNonce: Bytes)

  /** Requests awaiting an answer in key order, capacity claimed, completions posted. */
  datatype Table = Table(pending: seq<U64>, outstanding: int, posted: seq<Completion>)

  /** What the application is told: the link is up, or down and why, or a request or notification came in. */
  datatype Event = Up | Down(error: Errc) | Handed(f: Frame)

  datatype Link = Link(
    connected: bool, ready: bool, stopped: bool, peer: Id, peerRevoked: bool, reconnecting: bool,
    hs: Handshake, seenNonces: seq<Bytes>, writes: seq<Frame>, table: Table, events: seq<Event>)

  const FRESH := Link(false, false, false, [], false, false, Handshake(AwaitChallenge, [], [], []), [], [], Table([], 0, []), [])

  const NONCE_CACHE := 256

  // ---------------------------------------------------------------- requests

  /** The request table in key order, as an ordered map iterates it. */
  predicate Ascending(s: seq<U64>) {
    forall i, j :: 0 <= i < j < |s| ==> s[i] < s[j]
  }

  function InsertId(s: seq<U64>, id: U64): seq<U64> {
    if s == [] || id < s[0] then [id] + s
    else if id == s[0] then s
    else [s[0]] + InsertId(s[1..], id)
  }

  function RemoveId(s: seq<U64>, id: U64): seq<U64> {
    if s == [] then [] else if s[0] == id then s[1..] else [s[0]] + RemoveId(s[1..], id)
  }

  function Complete(t: Table, id: U64, reply: Reply): Table {
    if id !in t.pending then t
    else Table(RemoveId(t.pending, id), t.outstanding - 1, t.posted + [Completion(id, reply)])
  }

  function Completions(ids: seq<U64>, reply: Reply): (r: seq<Completion>)
    ensures |r| == |ids|
    ensures forall i :: 0 <= i < |ids| ==> r[i] == Completion(ids[i], reply)
  {
    seq(|ids|, i requires 0 <= i < |ids| => Completion(ids[i], reply))
  }

  /** Every request in the table completes, lowest id first. */
  function CompleteAll(t: Table, reply: Reply): Table {
    Table([], t.outstanding - |t.pending|, t.posted + Completions(t.pending, reply))
  }

  /** A request refused before it was registered gives its claim back. */
  function Refuse(t: Table, id: U64, e: Errc): Table {
    t.(outstanding := t.outstanding - 1, posted := t.posted + [Completion(id, Failed(e))])
  }

  function Enqueue(l: Link, o: Options, f: Frame): (bool, Link) {
    if 10 + |f.payload| > o.maxFrameBytes || |l.writes| >= o.maxQueued || !l.connected then (false, l)
    else (true, l.(writes := l.writes + [f]))
  }

  /** The executor half of a request. */
  function RunRequest(l: Link, o: Options, id: U64, payload: Bytes): Link {
    if l.stopped then l.(table := Refuse(l.table, id, OperationCanceled))
    else if !l.ready then l.(table := Refuse(l.table, id, NotConnected))
    else if |l.table.pending| >= o.maxPending || |l.writes| >= o.maxQueued
    then l.(table := Refuse(l.table, id, NoBufferSpace))
    else if 10 + |payload| > o.maxFrameBytes then l.(table := Refuse(l.table, id, MessageSize))
    else
      var registered := l.table.(pending := InsertId(l.table.pending, id));
      var (ok, n) := Enqueue(l, o, Frame(Request, id, payload));
      n.(table := if ok then registered else Complete(registered, id, Failed(NoBufferSpace)))
  }

  // ---------------------------------------------------------------- going down and coming up

  function Disconnect(l: Link, o: Options, e: Errc): Link {
    if !l.connected then l
    else Link(false, false, l.stopped, [], l.peerRevoked, l.reconnecting || (o.client && !l.stopped && !l.peerRevoked),
              l.hs.(auth := AwaitChallenge), l.seenNonces, [], CompleteAll(l.table, Failed(e)), l.events + [Down(e)])
  }

  function HelloFrame(o: Options, nonce: Bytes, epoch: U64): Frame {
    Frame(Hello, 0, if o.authenticated then EncodeIdentity(o.nodeId, epoch, nonce) else o.nodeId)
  }

  function Attach(l: Link, o: Options, nonce: Bytes, epoch: U64): Link {
    if l.stopped then l
    else
      var hs := l.hs.(auth := AwaitChallenge, ownNonce := if o.authenticated then nonce else l.hs.ownNonce);
      var m := l.(connected := true, peer := [], reconnecting := false, hs := hs, writes := []);
      var (ok, n) := Enqueue(m, o, HelloFrame(o, nonce, epoch));
      if ok then n else Disconnect(m, o, NoBufferSpace)
  }

  function StopOnExecutor(l: Link, o: Options): Link {
    var m := Disconnect(l.(reconnecting := false), o, OperationCanceled);
    m.(table := CompleteAll(m.table, Failed(OperationCanceled)))
  }

  // ---------------------------------------------------------------- handshake

  predicate Acceptable(o: Options, trust: Snapshot, id: Id) {
    id != [] && id != o.nodeId && Trusts(trust.neighbors, id) && (o.expectedPeer == [] || o.expectedPeer == id)
  }

  function Remember(seen: seq<Bytes>, nonce: Bytes): seq<Bytes> {
    var s := seen + [nonce];
    if |s| > NONCE_CACHE then s[|s| - NONCE_CACHE..] else s
  }

  /** The peer's challenge. The second result is the message signed, if the key was used. */
  function HandleHello(l: Link, o: Options, payload: Bytes, trust: Snapshot, sign: Bytes -> Option<Bytes>): (Link, Option<Bytes>) {
    if !l.hs.auth.AwaitChallenge? then (Disconnect(l, o, ProtocolError), None)
    else match DecodeIdentity(payload, NONCE_BYTES)
      case None => (Disconnect(l, o, ProtocolError), None)
      case Some((id, _, nonce)) =>
        if !Acceptable(o, trust, id) || nonce in l.seenNonces then (Disconnect(l, o, PermissionDenied), None)
        else
          var m := l.(seenNonces := Remember(l.seenNonces, nonce), hs := Handshake(AwaitResponse, l.hs.ownNonce, id, nonce));
          var message := AuthMessage(o.nodeId, l.hs.ownNonce, id, nonce);
          match sign(message)
          case None => (Disconnect(m, o, NotPermitted), None)
          case Some(signature) =>
            if |signature| != SIGNATURE_BYTES then (Disconnect(m, o, NoBufferSpace), Some(message))
            else
              var (ok, n) := Enqueue(m, o, Frame(HelloAuth, 0, EncodeIdentity(o.nodeId, trust.epoch, signature)));
              (if ok then n else Disconnect(m, o, NoBufferSpace), Some(message))
  }

  /** The peer's signed response, checked under `key`, the trust store's key for the challenger when it was looked up. */
  function HandleHelloAuth(l: Link, o: Options, payload: Bytes, key: Bytes, verify: (Bytes, Bytes, Bytes) -> bool): Link {
    if !l.hs.auth.AwaitResponse? then Disconnect(l, o, ProtocolError)
    else match DecodeIdentity(payload, SIGNATURE_BYTES)
      case None => Disconnect(l, o, ProtocolError)
      case Some((id, _, signature)) =>
        if id != l.hs.peerId then Disconnect(l, o, PermissionDenied)
        else if !verify(key, AuthMessage(id, l.hs.peerNonce, o.nodeId, l.hs.ownNonce), signature)
        then Disconnect(l, o, PermissionDenied)
        else l.(peer := id, hs := l.hs.(auth := Done), ready := true, events := l.events + [Up])
  }

  /** A trust change reaches the link. */
  function Recheck(l: Link, o: Options, trust: Snapshot): Link {
    var target := if l.peer != [] then l.peer else o.expectedPeer;
    if l.stopped || target == [] || target == o.nodeId || Trusts(trust.neighbors, target) then l
    else Disconnect(l.(peerRevoked := true), o, PermissionDenied)
  }

  /** Frames of an established link, and the whole of the unauthenticated handshake. */
  function HandlePlain(l: Link, o: Options, f: Frame): Link {
    match f.kind
    case Ping =>
      var (ok, n) := Enqueue(l, o, Frame(Pong, 0, []));
      if ok then n else Disconnect(l, o, NoBufferSpace)
    case Response => l.(table := Complete(l.table, f.id, Answer(f.payload)))
    case Request => l.(events := l.events + [Handed(f)])
    case Notify => l.(events := l.events + [Handed(f.(id := 0))])
    case _ => l
  }

  function HandleUnauthenticated(l: Link, o: Options, f: Frame): Link {
    if f.kind.HelloAuth? || f.kind.EpochConfig? then Disconnect(l, o, ProtocolError)
    else if !l.hs.auth.Done? then
      if !f.kind.Hello? || f.payload == [] || (o.expectedPeer != [] && f.payload != o.expectedPeer)
      then Disconnect(l, o, PermissionDenied)
      else l.(peer := f.payload, hs := l.hs.(auth := Done), ready := true, events := l.events + [Up])
    else if f.kind.Hello? then Disconnect(l, o, ProtocolError)
    else HandlePlain(l, o, f)
  }

  datatype Credentials = Credentials(sign: Bytes -> Option<Bytes>, verify: (Bytes, Bytes, Bytes) -> bool)

  /** A controller update: applied when its signature verifies, dropped otherwise, fatal when malformed. */
  function HandleEpochConfig(l: Link, o: Options, payload: Bytes, controllerKey: Bytes, c: Credentials): (Link, Option<Update>) {
    if !l.hs.auth.Done? then (Disconnect(l, o, ProtocolError), None)
    else match DecodeUpdate(payload)
      case None => (Disconnect(l, o, ProtocolError), None)
      case Some((u, signature)) =>
        (l, if |payload| >= SIGNATURE_BYTES && c.verify(controllerKey, payload[..|payload| - SIGNATURE_BYTES], signature)
            then Some(u) else None)
  }

  function HandleFrame(l: Link, o: Options, f: Frame, trust: Snapshot, controllerKey: Bytes, c: Credentials): Link {
    if !o.authenticated then HandleUnauthenticated(l, o, f)
    else match f.kind
      case Hello => HandleHello(l, o, f.payload, trust, c.sign).0
      case HelloAuth => HandleHelloAuth(l, o, f.payload, NeighborKey(trust.neighbors, l.hs.peerId), c.verify)
      case EpochConfig => HandleEpochConfig(l, o, f.payload, controllerKey, c).0
      case _ => if !l.hs.auth.Done? then Disconnect(l, o, PermissionDenied) else HandlePlain(l, o, f)
  }

  // ---------------------------------------------------------------- the object

  /** A live link, updated in place. */
  class NodeLink {
    const o: Options
    var connected: bool
    var ready: bool
    var stopped: bool
    var peer: Id
    var peerRevoked: bool
    var reconnecting: bool
    var hs: Handshake
    var seenNonces: seq<Bytes>
    var writes: seq<Frame>
    var table: Table
    var events: seq<Event>

    function View(): Link
      reads this
    {
      Link(connected, ready, stopped, peer, peerRevoked, reconnecting, hs, seenNonces, writes, table, events)
    }

    constructor (o: Options)
      requires ValidOptions(o)
      ensures View() == FRESH && this.o == o
    {
      this.o := o;
      connected, ready, stopped, peer, peerRevoked, reconnecting := false, false, false, [], false, false;
      hs, seenNonces, writes, table := Handshake(AwaitChallenge, [], [], []), [], [], Table([], 0, []);
      events := [];
    }

    method CompleteOne(id: U64, reply: Reply)
      modifies this`table
      ensures table == Complete(old(table), id, reply)
    {
      if id !in table.pending { return; }
      table := table.(pending := RemoveId(table.pending, id));
      table := table.(outstanding := table.outstanding - 1);
      table := table.(posted := table.posted + [Completion(id, reply)]);
    }

    method CompletePending(reply: Reply)
      modifies this`table
      ensures table == CompleteAll(old(table), reply)
    {
      ghost var ids, n := table.pending, 0;
      while table.pending != []
        invariant n <= |ids| && table.pending == ids[n..] && table.outstanding == old(table).outstanding - n
        invariant table.posted == old(table).posted + Completions(ids[..n], reply)
        decreases |table.pending|
      {
        CompleteOne(table.pending[0], reply);
        assert Completions(ids[..n + 1], reply) == Completions(ids[..n], reply) + [Completion(ids[n], reply)];
        n := n + 1;
      }
      assert ids[..n] == ids;
    }

    method Push(f: Frame) returns (ok: bool)
      modifies this`writes
      ensures (ok, View()) == Enqueue(old(View()), o, f)
    {
      if 10 + |f.payload| > o.maxFrameBytes || |writes| >= o.maxQueued || !connected { return false; }
      writes := writes + [f];
      return true;
    }

    method TearDown(e: Errc)
      modifies this
      ensures View() == Disconnect(old(View()), o, e)
    {
      if !connected { return; }
      ready, peer, hs := false, [], hs.(auth := AwaitChallenge);
      connected, writes := false, [];
      CompletePending(Failed(e));
      events := events + [Down(e)];
      if o.client && !stopped && !peerRevoked { reconnecting := true; }
    }

    method StartRequest(id: U64, payload: Bytes)
      modifies this
      ensures View() == RunRequest(old(View()), o, id, payload)
    {
      var refused := if stopped then Some(OperationCanceled)
                     else if !ready then Some(NotConnected)
                     else if |table.pending| >= o.maxPending || |writes| >= o.maxQueued then Some(NoBufferSpace)
                     else if |payload| > o.maxFrameBytes - 10 then Some(MessageSize) else None;
      if refused.Some? {
        table := Refuse(table, id, refused.value);
        return;
      }
      table := table.(pending := InsertId(table.pending, id));
      var ok := Push(Frame(Request, id, payload));
      if !ok { CompleteOne(id, Failed(NoBufferSpace)); }
    }

    method OnAttach(nonce: Bytes, epoch: U64)
      modifies this
      ensures View() == Attach(old(View()), o, nonce, epoch)
    {
      hide Disconnect, HelloFrame;
      if stopped { return; }
      connected, peer, reconnecting, writes := true, [], false, [];
      hs := hs.(auth := AwaitChallenge);
      if o.authenticated { hs := hs.(ownNonce := nonce); }
      var ok := Push(HelloFrame(o, nonce, epoch));
      if !ok { TearDown(NoBufferSpace); }
    }

    method OnHello(payload: Bytes, trust: Snapshot, sign: Bytes -> Option<Bytes>) returns (signed: Option<Bytes>)
      modifies this
      ensures (View(), signed) == HandleHello(old(View()), o, payload, trust, sign)
    {
      hide Disconnect, AuthMessage, EncodeIdentity, DecodeIdentity, Remember, Acceptable;
      signed := None;
      if !hs.auth.AwaitChallenge? { TearDown(ProtocolError); return; }
      var challenge := DecodeIdentity(payload, NONCE_BYTES);
      if challenge.None? { TearDown(ProtocolError); return; }
      var (id, _, nonce) := challenge.value;
      if !Acceptable(o, trust, id) || nonce in seenNonces { TearDown(PermissionDenied); return; }
      seenNonces := Remember(seenNonces, nonce);
      hs := hs.(peerId := id, peerNonce := nonce, auth := AwaitResponse);
      var message := AuthMessage(o.nodeId, hs.ownNonce, id, nonce);
      var signature := sign(message);
      if signature.None? { TearDown(NotPermitted); return; }
      signed := Some(message);
      if |signature.value| != SIGNATURE_BYTES { TearDown(NoBufferSpace); return; }
      var ok := Push(Frame(HelloAuth, 0, EncodeIdentity(o.nodeId, trust.epoch, signature.value)));
      if !ok { TearDown(NoBufferSpace); }
    }

    method OnHelloAuth(payload: Bytes, key: Bytes, verify: (Bytes, Bytes, Bytes) -> bool)
      modifies this
      ensures View() == HandleHelloAuth(old(View()), o, payload, key, verify)
    {
      hide Disconnect, AuthMessage, DecodeIdentity;
      if !hs.auth.AwaitResponse? { TearDown(ProtocolError); return; }
      var response := DecodeIdentity(payload, SIGNATURE_BYTES);
      if response.None? { TearDown(ProtocolError); return; }
      var (id, _, signature) := response.value;
      if id != hs.peerId { TearDown(PermissionDenied); return; }
      var message := AuthMessage(id, hs.peerNonce, o.nodeId, hs.ownNonce);
      if !verify(key, message, signature) { TearDown(PermissionDenied); return; }
      peer, hs, ready, events := id, hs.(auth := Done), true, events + [Up];
    }

    method OnTrustChange(trust: Snapshot)
      modifies this
      ensures View() == Recheck(old(View()), o, trust)
    {
      if stopped { return; }
      var target := if peer != [] then peer else o.expectedPeer;
      if target == [] || target == o.nodeId { return; }
      if !Trusts(trust.neighbors, target) {
        peerRevoked := true;
        TearDown(PermissionDenied);
      }
    }

    method OnStop()
      modifies this
      ensures View() == StopOnExecutor(old(View()), o)
    {
      reconnecting := false;
      TearDown(OperationCanceled);
      CompletePending(Failed(OperationCanceled));
    }
  }

  // ---------------------------------------------------------------- what every step keeps

  /**
   * Requests are pending only on a ready link, a ready link is connected and
   * past its handshake, no reconnect is scheduled while connected, the peer is
   * the expected one if any, and queue and remembered nonces are bounded.
   */
  ghost predicate LinkInv(l: Link, o: Options) {
    && (l.ready ==> l.connected) && (l.ready <==> l.hs.auth.Done?)
    && (l.connected ==> !l.reconnecting)
    && (l.table.pending != [] ==> l.ready)
    && Ascending(l.table.pending)
    && |l.writes| <= o.maxQueued && (!l.connected ==> l.writes == [])
    && (l.peer != [] ==> l.ready)
    && (l.ready && o.expectedPeer != [] ==> l.peer == o.expectedPeer)
    && (!l.connected ==> l.hs.auth.AwaitChallenge?)
    && |l.seenNonces| <= NONCE_CACHE
    && (o.authenticated ==> AuthInv(l, o))
  }

  ghost predicate AuthInv(l: Link, o: Options) {
    && (l.connected ==> |l.hs.ownNonce| == NONCE_BYTES)
    && (!l.hs.auth.AwaitChallenge? ==>
          && Party(l.hs.peerId, l.hs.peerNonce) && l.hs.peerId != [] && l.hs.peerId != o.nodeId
          && (o.expectedPeer == [] || l.hs.peerId == o.expectedPeer))
    && (l.ready ==> l.peer == l.hs.peerId)
  }

  lemma {:induction false} InsertMembers(s: seq<U64>, id: U64)
    requires Ascending(s)
    ensures multiset(InsertId(s, id)) == if id in s then multiset(s) else multiset(s) + multiset{id}
  {
    if s != [] {
      var rest := s[1..];
      assert s == [s[0]] + rest;
      if id > s[0] { InsertMembers(rest, id); }
    }
  }

  lemma {:induction false} RemoveMembers(s: seq<U64>, id: U64)
    ensures multiset(RemoveId(s, id)) == multiset(s) - multiset{id}
  {
    if s != [] {
      assert s == [s[0]] + s[1..];
      if s[0] != id { RemoveMembers(s[1..], id); }
    }
  }

  lemma {:induction false} InsertAscending(s: seq<U64>, id: U64)
    requires Ascending(s)
    ensures Ascending(InsertId(s, id))
    ensures InsertId(s, id) != [] && InsertId(s, id)[0] == if s == [] || id < s[0] then id else s[0]
  {
    if s != [] && id > s[0] {
      InsertAscending(s[1..], id);
      PrependAscending(s[0], InsertId(s[1..], id));
    }
  }

  lemma PrependAscending(x: U64, s: seq<U64>)
    requires Ascending(s) && (s != [] ==> x < s[0])
    ensures Ascending([x] + s)
  {
    assert forall i :: 0 < i < |s| ==> s[0] < s[i];
  }

  lemma {:induction false} RemoveAscending(s: seq<U64>, id: U64)
    requires Ascending(s)
    ensures Ascending(RemoveId(s, id))
    ensures RemoveId(s, id) != [] ==> s != [] && s[0] <= RemoveId(s, id)[0]
  {
    if s != [] && s[0] != id {
      RemoveAscending(s[1..], id);
      PrependAscending(s[0], RemoveId(s[1..], id));
    }
  }

  lemma CompleteInv(t: Table, id: U64, reply: Reply)
    requires Ascending(t.pending)
    ensures Ascending(Complete(t, id, reply).pending)
    ensures Complete(t, id, reply).pending != [] ==> t.pending != []
  {
    RemoveAscending(t.pending, id);
  }

  lemma DisconnectInv(l: Link, o: Options, e: Errc)
    requires LinkInv(l, o)
    ensures LinkInv(Disconnect(l, o, e), o)
    ensures !Disconnect(l, o, e).connected && !Disconnect(l, o, e).ready && Disconnect(l, o, e).table.pending == []
  {}

  /** Attaching is only reached on a link that is down. */
  lemma AttachInv(l: Link, o: Options, nonce: Bytes, epoch: U64)
    requires LinkInv(l, o) && !l.connected && |nonce| == NONCE_BYTES
    ensures LinkInv(Attach(l, o, nonce, epoch), o)
  {}

  lemma HelloInv(l: Link, o: Options, payload: Bytes, trust: Snapshot, sign: Bytes -> Option<Bytes>)
    requires LinkInv(l, o) && o.authenticated && l.connected
    ensures LinkInv(HandleHello(l, o, payload, trust, sign).0, o)
  {
    hide AuthMessage, EncodeIdentity, DecodeIdentity, Trusts, Disconnect;
    DisconnectInv(l, o, ProtocolError);
    DisconnectInv(l, o, PermissionDenied);
    if DecodeIdentity(payload, NONCE_BYTES).Some? && l.hs.auth.AwaitChallenge? {
      EncodeDecodeIdentity(payload, NONCE_BYTES);
      var (id, _, nonce) := DecodeIdentity(payload, NONCE_BYTES).value;
      if Acceptable(o, trust, id) {
        var m := l.(seenNonces := Remember(l.seenNonces, nonce), hs := Handshake(AwaitResponse, l.hs.ownNonce, id, nonce));
        DisconnectInv(m, o, NotPermitted);
        DisconnectInv(m, o, NoBufferSpace);
      }
    }
  }

  lemma HelloAuthInv(l: Link, o: Options, payload: Bytes, key: Bytes, verify: (Bytes, Bytes, Bytes) -> bool)
    requires LinkInv(l, o) && o.authenticated && l.connected
    ensures LinkInv(HandleHelloAuth(l, o, payload, key, verify), o)
  {}

  lemma RecheckInv(l: Link, o: Options, trust: Snapshot)
    requires LinkInv(l, o)
    ensures LinkInv(Recheck(l, o, trust), o)
  {}

  lemma RequestInv(l: Link, o: Options, id: U64, payload: Bytes)
    requires LinkInv(l, o)
    ensures LinkInv(RunRequest(l, o, id, payload), o)
  {
    InsertAscending(l.table.pending, id);
  }

  lemma StopInv(l: Link, o: Options)
    requires LinkInv(l, o)
    ensures LinkInv(StopOnExecutor(l, o), o)
  {}

  lemma PlainInv(l: Link, o: Options, f: Frame)
    requires LinkInv(l, o) && l.connected && l.hs.auth.Done?
    ensures LinkInv(HandlePlain(l, o, f), o)
  {
    hide Complete;
    CompleteInv(l.table, f.id, Answer(f.payload));
  }

  lemma FrameInv(l: Link, o: Options, f: Frame, trust: Snapshot, controllerKey: Bytes, c: Credentials)
    requires LinkInv(l, o) && l.connected
    ensures LinkInv(HandleFrame(l, o, f, trust, controllerKey, c), o)
  {
    hide HandleHello, HandleHelloAuth, HandlePlain, DecodeUpdate;
    if l.hs.auth.Done? { PlainInv(l, o, f); }
    if o.authenticated {
      HelloInv(l, o, f.payload, trust, c.sign);
      HelloAuthInv(l, o, f.payload, NeighborKey(trust.neighbors, l.hs.peerId), c.verify);
    }
  }

  // ---------------------------------------------------------------- what a frame is answered with

  /** A neighbor of the store other than this node, and the expected one if there is one. */
  predicate Welcome(o: Options, trust: Snapshot, id: Id) {
    && 0 < |id| && id != o.nodeId && (o.expectedPeer != [] ==> id == o.expectedPeer)
    && exists i :: 0 <= i < |trust.neighbors| && trust.neighbors[i].id == id
  }

  /** The link awaits a challenge, and the payload is one from a welcome node with a nonce not seen lately. */
  predicate Challenged(l: Link, o: Options, payload: Bytes, trust: Snapshot) {
    && l.hs.auth.AwaitChallenge?
    && match DecodeIdentity(payload, NONCE_BYTES)
       case None => false
       case Some((id, _, nonce)) => Welcome(o, trust, id) && nonce !in l.seenNonces
  }

  /**
   * A challenge is taken up if and only if it comes from a welcome node with a
   * nonce not seen lately. Then the key signs exactly the two challenges, the
   * nonce is remembered, and the signature is queued for the peer; or the link
   * goes down because it cannot be made or queued. Otherwise the link goes down
   * and the key is not used.
   */
  lemma HelloAnsweredExactly(l: Link, o: Options, payload: Bytes, trust: Snapshot, sign: Bytes -> Option<Bytes>)
    requires l.connected
    ensures var (r, signed) := HandleHello(l, o, payload, trust, sign);
            if Challenged(l, o, payload, trust)
            then
              var (id, _, nonce) := DecodeIdentity(payload, NONCE_BYTES).value;
              var message := AuthMessage(o.nodeId, l.hs.ownNonce, id, nonce);
              && signed == (if sign(message).Some? then Some(message) else None)
              && r.seenNonces == Remember(l.seenNonces, nonce)
              && (r.connected ==>
                    && sign(message).Some? && r.hs == Handshake(AwaitResponse, l.hs.ownNonce, id, nonce)
                    && r.writes == l.writes + [Frame(HelloAuth, 0, EncodeIdentity(o.nodeId, trust.epoch, sign(message).value))])
              && (r.connected <==>
                    && sign(message).Some? && |sign(message).value| == SIGNATURE_BYTES && |l.writes| < o.maxQueued
                    && 10 + |EncodeIdentity(o.nodeId, trust.epoch, sign(message).value)| <= o.maxFrameBytes)
            else signed == None && !r.connected && r.seenNonces == l.seenNonces
  {
    hide AuthMessage, EncodeIdentity, DecodeIdentity, Remember, CompleteAll;
  }

  /** A response makes the link ready, with the challenged peer, if and only if that peer's signature of both challenges verifies. */
  lemma ReadyExactly(l: Link, o: Options, payload: Bytes, key: Bytes, verify: (Bytes, Bytes, Bytes) -> bool)
    requires LinkInv(l, o) && l.connected && !l.ready
    ensures var r := HandleHelloAuth(l, o, payload, key, verify);
            && (r.connected <==> r.ready)
            && (r.ready <==>
                  && l.hs.auth.AwaitResponse? && DecodeIdentity(payload, SIGNATURE_BYTES).Some?
                  && var (id, _, signature) := DecodeIdentity(payload, SIGNATURE_BYTES).value;
                     id == l.hs.peerId && verify(key, AuthMessage(l.hs.peerId, l.hs.peerNonce, o.nodeId, l.hs.ownNonce), signature))
            && (r.ready ==> r.peer == l.hs.peerId && r.hs.auth.Done?)
  {
    hide AuthMessage, DecodeIdentity, CompleteAll;
  }

  /**
   * A controller update is taken up if and only if the handshake is done and
   * the payload is the canonical encoding of that update followed by the
   * controller's signature of exactly those bytes. An unsigned or forged one is
   * ignored; one that does not decode takes the link down.
   */
  lemma UpdateTakenExactly(l: Link, o: Options, payload: Bytes, controllerKey: Bytes, c: Credentials, u: Update)
    requires l.connected
    ensures var (r, taken) := HandleEpochConfig(l, o, payload, controllerKey, c);
            && (taken == Some(u) <==>
                  && l.hs.auth.Done? && UpdateEncodable(u)
                  && exists signature :: |signature| == SIGNATURE_BYTES && payload == EncodeUpdate(u) + signature
                                         && c.verify(controllerKey, EncodeUpdate(u), signature))
            && (r.connected <==> l.hs.auth.Done? && DecodeUpdate(payload).Some?) && (r.connected ==> r == l)
  {
    hide EncodeUpdate, DecodeUpdate, CompleteAll;
    if DecodeUpdate(payload).Some? { EncodeDecodeUpdate(payload); }
    forall signature: Bytes | UpdateEncodable(u) && |signature| == SIGNATURE_BYTES && payload == EncodeUpdate(u) + signature
      ensures DecodeUpdate(payload) == Some((u, signature)) && payload[..|payload| - SIGNATURE_BYTES] == EncodeUpdate(u)
    {
      DecodeEncodeUpdate(u, signature);
    }
  }

  /**
   * On a link that keeps the invariant, a request that passes the checks is
   * always queued: the give-up path after registration is never taken.
   */
  lemma RegisteredMeansQueued(l: Link, o: Options, id: U64, payload: Bytes)
    requires LinkInv(l, o) && id !in l.table.pending
    ensures var r := RunRequest(l, o, id, payload);
            id in r.table.pending <==> !l.stopped && l.ready && |l.table.pending| < o.maxPending
                                       && |l.writes| < o.maxQueued && 10 + |payload| <= o.maxFrameBytes
    ensures var r := RunRequest(l, o, id, payload);
            if id in r.table.pending
            then r.writes == l.writes + [Frame(Request, id, payload)] && r.table.posted == l.table.posted
            else r.writes == l.writes && |r.table.posted| == |l.table.posted| + 1
  {
    InsertMembers(l.table.pending, id);
    assert id in multiset(InsertId(l.table.pending, id));
  }
}
