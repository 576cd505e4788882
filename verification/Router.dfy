/** One node's router: sending, receiving, forwarding, reporting, handing off to links. */
module Router {
  import opened ByteCodec
  import opened Seqs
  import opened EnvelopeCodec
  import opened Lru
  import opened ReplayGuard

  type Id = Bytes

  datatype Code = Unroutable | TtlExhausted | ReplayRejected | DecryptFailed | UnknownType | QueueOverflow

  function CodeByte(c: Code): Byte {
    match c
    case Unroutable => 1
    case TtlExhausted => 2
    case ReplayRejected => 3
    case DecryptFailed => 4
    case UnknownType => 5
    case QueueOverflow => 6
  }

  datatype Errc = OperationCanceled | InvalidArgument | MessageSize | NotSupported | ProtocolError | NoBufferSpace | HostUnreachable | NotConnected

  datatype Options = Options(
    limits: Limits, maxHops: U32, tolerance: nat, maxInFlight: nat, seenCapacity: nat, caps: Caps,
    dedup: bool, forwardEnabled: bool)

  /** What `create` insists on. */
  predicate ValidOptions(o: Options) {
    && 1 <= o.limits.maxNodeIdBytes <= 255 && 1 <= o.limits.maxRouteHops <= 255
    && o.limits.maxEnvelopeBytes >= FIXED_HEADER + TAIL_HEADER
    && o.maxHops > 0 && o.maxInFlight > 0 && o.seenCapacity > 0 && ValidCaps(o.caps)
  }

  datatype Router = Router(
    id: Id, links: set<Id>, keys: map<Byte, Bytes>, seen: seq<Entry<nat, int>>, nonces: Sources,
    inFlight: int, stopped: bool)

  /** Clock and randomness of one step, and the AEAD primitives: key, nonce, additional data, input. */
  datatype Env = Env(
    now: U64, freshNonce: U32, freshId: U64,
    seal: (Bytes, Bytes, Bytes, Bytes) -> Option<Bytes>, open: (Bytes, Bytes, Bytes, Bytes) -> Option<Bytes>)

  const TAG_BYTES := 16

  /** Where a failure is reported to. */
  datatype Back = Back(source: Id, route: seq<Id>, messageId: U64, silent: bool)

  /** Work posted to an executor, or a wire on a link. A token stands for the caller's completion. */
  datatype Task =
    | Send(at: Id, m: Envelope, token: Option<nat>)
    | Arrive(at: Id, wire: Bytes)
    | Handoff(at: Id, next: Id, wire: Bytes, back: Back, isReport: bool, token: Option<nat>)
    | Admit(at: Id, next: Id, wire: Bytes, back: Back, isReport: bool, token: Option<nat>, before: int)
    | Notify(at: Id, next: Id, wire: Bytes, back: Back, isReport: bool, token: Option<nat>)
    | Callback(at: Id, error: Option<Errc>, back: Back, isReport: bool, token: Option<nat>)

  /** A completion that has run. */
  datatype Ended = Ended(token: nat, error: Option<Errc>)

  /** A failure report as the application hears it: the report, its code, the message it is about. */
  datatype Told = Told(report: Envelope, code: Byte, messageId: U64)

  /**
   * What one task does: the router after it, work posted, completions run,
   * completions destroyed uncalled, messages delivered, failures told, envelopes made.
   */
  datatype Out = Out(
    r: Router, tasks: seq<Task>, ended: seq<Ended>, lost: seq<nat>, delivered: seq<Envelope>, told: seq<Told>,
    made: seq<Envelope>)

  function Nothing(r: Router): Out { Out(r, [], [], [], [], [], []) }

  function End(token: Option<nat>, error: Option<Errc>): seq<Ended> {
    if token.None? then [] else [Ended(token.value, error)]
  }

  // ---------------------------------------------------------------- fresh envelopes

  function SendFresh(r: Router, o: Options, m: Envelope, env: Env): Envelope {
    m.(source := r.id,
       ttl := if m.ttl == 0 then o.maxHops else m.ttl,
       nonce := if m.nonce == 0 then env.freshNonce else m.nonce,
       timestamp := if m.timestamp == 0 then env.now else m.timestamp,
       messageId := if m.messageId == 0 then env.freshId else m.messageId,
       routePos := 0)
  }

  /** The node an envelope with `pos` hops consumed is headed to. */
  function Target(e: Envelope, pos: nat): Id {
    if pos < |e.route| then e.route[pos] else e.destination
  }

  function Blank(kind: MessageType, destination: Id, route: seq<Id>, payload: Bytes): Envelope {
    Envelope(1, kind, false, 0, 0, 0, 0, 0, [], destination, route, 0, payload)
  }

  function Reverse<T>(s: seq<T>): (r: seq<T>)
    ensures |r| == |s|
    ensures forall i :: 0 <= i < |s| ==> r[i] == s[|s| - 1 - i]
  {
    seq(|s|, i requires 0 <= i < |s| => s[|s| - 1 - i])
  }

  /** The hops already consumed, last first. */
  function ReturnRoute(route: seq<Id>, consumed: nat): seq<Id>
    requires consumed <= |route|
  {
    Reverse(route[..consumed])
  }

  function BackOf(e: Envelope): Back
    requires e.routePos <= |e.route|
  {
    Back(e.source, ReturnRoute(e.route, e.routePos), e.messageId, e.kind.Error?)
  }

  /** Hands a router-made envelope off; its own failure is never reported. */
  function Emit(r: Router, e: Envelope): (seq<Task>, seq<Envelope>) {
    match EncodeEnvelope(e)
    case Wire(w) => ([Handoff(r.id, Target(e, 0), w, Back(e.source, [], e.messageId, true), true, None)], [e])
    case InvalidArgument => ([], [])
    case LengthError => ([], [])
  }

  function ReportEnvelope(r: Router, o: Options, back: Back, code: Code, env: Env): Envelope {
    SendFresh(r, o, Blank(Error, back.source, back.route, [CodeByte(code)] + PutBE(back.messageId, 8)), env)
  }

  function Report(r: Router, o: Options, back: Back, code: Code, env: Env): (seq<Task>, seq<Envelope>) {
    if back.silent || back.source == [] || back.source == r.id || r.stopped then ([], [])
    else Emit(r, ReportEnvelope(r, o, back, code, env))
  }

  function Reported(r: Router, o: Options, back: Back, code: Code, env: Env): Out {
    var (tasks, made) := Report(r, o, back, code, env);
    Nothing(r).(tasks := tasks, made := made)
  }

  // ---------------------------------------------------------------- sending

  predicate ValidHops(r: Router, o: Options, m: Envelope) {
    && (forall i :: 0 <= i < |m.route| ==>
          1 <= |m.route[i]| <= o.limits.maxNodeIdBytes && m.route[i] != r.id && m.route[i] != m.destination)
    && (forall i, j :: 0 <= i < j < |m.route| ==> m.route[i] != m.route[j])
  }

  /** The reason a message is refused before it is encoded. */
  function Refusal(r: Router, o: Options, m: Envelope): Option<Errc> {
    if r.stopped then Some(OperationCanceled)
    else if m.destination == [] || |m.destination| > o.limits.maxNodeIdBytes then Some(Errc.InvalidArgument)
    else if |m.payload| > o.limits.maxEnvelopeBytes then Some(MessageSize)
    else if |m.route| > o.limits.maxRouteHops then Some(Errc.InvalidArgument)
    else if !ValidHops(r, o, m) then Some(Errc.InvalidArgument)
    else None
  }

  function AeadNonce(e: Envelope): Bytes { PutBE(e.messageId, 8) + PutBE(e.nonce, 4) }

  /** The envelope as it goes on the wire: the payload sealed when asked for. */
  datatype Prepared = Ready(e: Envelope) | Refused(error: Errc)

  function Prepare(r: Router, o: Options, m: Envelope, env: Env): Prepared {
    var e := SendFresh(r, o, m, env);
    if !e.encrypted then Ready(e)
    else if e.keyId !in r.keys then Refused(NotSupported)
    else match env.seal(r.keys[e.keyId], AeadNonce(e), Aad(e, |e.payload| + TAG_BYTES), e.payload)
      case None => Refused(ProtocolError)
      case Some(cipher) => Ready(e.(payload := cipher))
  }

  function RunSend(r: Router, o: Options, m: Envelope, token: Option<nat>, env: Env): Out {
    match Refusal(r, o, m)
    case Some(error) => Nothing(r).(ended := End(token, Some(error)))
    case None =>
      match Prepare(r, o, m, env)
      case Refused(error) => Nothing(r).(ended := End(token, Some(error)))
      case Ready(e) =>
        if !e.encrypted && !Encodable(e) then Nothing(r).(lost := if token.Some? then [token.value] else [])
        else
          var wire := WireOf(e);
          if |wire| > o.limits.maxEnvelopeBytes then Nothing(r).(ended := End(token, Some(MessageSize)))
          else Nothing(r).(
            tasks := [Handoff(r.id, Target(e, 0), wire, Back(e.source, [], e.messageId, true), false, token)],
            made := [e])
  }

  // ---------------------------------------------------------------- receiving

  function ToInt64(x: U64): int { if x < 0x8000_0000_0000_0000 then x else x - 0x1_0000_0000_0000_0000 }

  predicate InTolerance(o: Options, now: U64, stamp: U64) {
    0 - o.tolerance <= ToInt64(now) - ToInt64(stamp) <= o.tolerance
  }

  function AckEnvelope(r: Router, o: Options, e: Envelope, env: Env): Envelope
    requires e.routePos <= |e.route|
  {
    SendFresh(r, o, Blank(Ack, e.source, BackOf(e).route, PutBE(e.messageId, 8) + e.payload), env)
  }

  /** The payload in clear, if it can be had. */
  function Unseal(r: Router, e: Envelope, env: Env): Option<Bytes> {
    if !e.encrypted then Some(e.payload)
    else if e.keyId !in r.keys then None
    else env.open(r.keys[e.keyId], AeadNonce(e), Aad(e, |e.payload|), e.payload)
  }

  /** What a destination does with an envelope that passed the guards. */
  function Accept(r: Router, o: Options, e: Envelope, env: Env): Out
    requires e.routePos <= |e.route|
  {
    match Unseal(r, e, env)
    case None => Reported(r, o, BackOf(e), DecryptFailed, env)
    case Some(payload) =>
      var e' := e.(payload := payload);
      if e.kind.Error? then
        if |payload| < 9 then Nothing(r) else Nothing(r).(told := [Told(e', payload[0], FieldAt(payload, 1, 8))])
      else if e.kind.Probe? then
        var (tasks, made) := Emit(r, AckEnvelope(r, o, e', env));
        Nothing(r).(tasks := tasks, made := made)
      else Nothing(r).(delivered := [e'])
  }

  function Deliver(r: Router, o: Options, e: Envelope, env: Env): Out
    requires ValidOptions(o) && e.routePos <= |e.route|
  {
    if !InTolerance(o, env.now, e.timestamp) then Reported(r, o, BackOf(e), ReplayRejected, env)
    else
      var r1 := r.(nonces := NonceStep(r.nonces, e.source, e.nonce, o.caps));
      if Remembered(r.nonces, e.source, e.nonce) then Reported(r1, o, BackOf(e), ReplayRejected, env)
      else
        var r2 := if o.dedup then r1.(seen := Touch(r1.seen, e.messageId, 0, 0, o.seenCapacity)) else r1;
        if o.dedup && Has(r1.seen, e.messageId) then Nothing(r2)
        else Accept(r2, o, e, env)
  }

  /** The envelope a relay passes on. */
  function Advanced(e: Envelope): Envelope
    requires e.ttl > 0 && e.routePos <= |e.route| <= 255
  {
    e.(ttl := e.ttl - 1, routePos := if e.routePos < |e.route| then e.routePos + 1 else e.routePos)
  }

  function Forward(r: Router, o: Options, e: Envelope, env: Env): Out
    requires ValidOptions(o) && e.routePos <= |e.route| <= 255
  {
    var r1 := r.(seen := Touch(r.seen, e.messageId, 0, 0, o.seenCapacity));
    if Has(r.seen, e.messageId) then Nothing(r1)
    else if !o.forwardEnabled then Reported(r1, o, BackOf(e), Unroutable, env)
    else if e.routePos < |e.route| && e.route[e.routePos] != r.id then Reported(r1, o, BackOf(e), Unroutable, env)
    else if e.ttl == 0 then Reported(r1, o, BackOf(e), TtlExhausted, env)
    else
      var next := if e.routePos < |e.route| then Target(e, e.routePos + 1) else e.destination;
      match EncodeEnvelope(Advanced(e))
      case Wire(w) => Nothing(r1).(tasks := [Handoff(r.id, next, w, BackOf(e), false, None)])
      case InvalidArgument => Nothing(r1)
      case LengthError => Nothing(r1)
  }

  function Receive(r: Router, o: Options, wire: Bytes, env: Env): Out
    requires ValidOptions(o)
  {
    if r.stopped then Nothing(r)
    else match DecodeEnvelope(wire, o.limits)
      case Malformed => Nothing(r)
      case UnknownVersion => Nothing(r)
      case OkUnknownType(e) =>
        EncodeDecodeUnknown(wire, o.limits);
        Reported(r, o, BackOf(e).(silent := false), UnknownType, env)
      case Ok(e) =>
        EncodeDecode(wire, o.limits);
        if e.destination == r.id then Deliver(r, o, e, env) else Forward(r, o, e, env)
  }

  // ---------------------------------------------------------------- handing off

  function LookUp(r: Router, o: Options, t: Task, env: Env): Out
    requires t.Handoff? || t.Admit?
  {
    if t.next !in r.links then
      var r1 := if t.isReport then r else r.(inFlight := r.inFlight - 1);
      Reported(r1, o, t.back, Unroutable, env).(ended := End(t.token, Some(HostUnreachable)))
    else Nothing(r).(tasks := [Notify(r.id, t.next, t.wire, t.back, t.isReport, t.token)])
  }

  /** First half of a handoff: a message of our own or a relayed one claims a place in flight, a report does not. */
  function RunHandoff(r: Router, o: Options, t: Task, env: Env): Out
    requires t.Handoff?
  {
    if r.stopped then Nothing(r).(ended := End(t.token, Some(OperationCanceled)))
    else if t.isReport then LookUp(r, o, t, env)
    else Nothing(r.(inFlight := r.inFlight + 1)).(
      tasks := [Admit(r.id, t.next, t.wire, t.back, t.isReport, t.token, r.inFlight)])
  }

  /** Second half: the claim is judged by the count before it. */
  function RunAdmit(r: Router, o: Options, t: Task, env: Env): Out
    requires t.Admit?
  {
    if t.before >= o.maxInFlight then
      Reported(r.(inFlight := r.inFlight - 1), o, t.back, QueueOverflow, env).(ended := End(t.token, Some(NoBufferSpace)))
    else LookUp(r, o, t, env)
  }

  /** The link took the wire, or did not; either way the router hears of it. */
  function RunNotify(r: Router, t: Task, error: Option<Errc>): Out
    requires t.Notify?
  {
    Nothing(r).(tasks := (if error.None? then [Arrive(t.next, t.wire)] else [])
                         + [Callback(t.at, error, t.back, t.isReport, t.token)])
  }

  function RunCallback(r: Router, o: Options, t: Task, env: Env): Out
    requires t.Callback?
  {
    var r1 := if t.isReport then r else r.(inFlight := r.inFlight - 1);
    var out := if t.error.None? then Nothing(r1)
               else Reported(r1, o, t.back, if t.error.value.NoBufferSpace? then QueueOverflow else Unroutable, env);
    out.(ended := End(t.token, t.error))
  }

  // ---------------------------------------------------------------- the object

  /** A live router, updated in place; what its methods post is returned. */
  class NodeRouter {
    const id: Id
    const o: Options
    var links: set<Id>
    var keys: map<Byte, Bytes>
    var seen: seq<Entry<nat, int>>
    var nonces: Sources
    var inFlight: int
    var stopped: bool

    function View(): Router
      reads this
    {
      Router(id, links, keys, seen, nonces, inFlight, stopped)
    }

    constructor (id: Id, o: Options)
      requires ValidOptions(o) && 1 <= |id| <= 255
      ensures View() == Router(id, {}, map[], [], [], 0, false) && this.o == o
    {
      this.id, this.o := id, o;
      links, keys, seen, nonces, inFlight, stopped := {}, map[], [], [], 0, false;
    }

    /** Every hop named once, and none of them this node or the destination. */
    method CheckRoute(m: Envelope) returns (ok: bool)
      ensures ok == ValidHops(View(), o, m)
    {
      var unique: set<Id> := {};
      for i := 0 to |m.route|
        invariant unique == ToSet(m.route[..i])
        invariant ValidHops(View(), o, m.(route := m.route[..i]))
      {
        var hop := m.route[i];
        if hop == [] || |hop| > o.limits.maxNodeIdBytes || hop == id || hop == m.destination { return false; }
        if hop in unique {
          var j :| 0 <= j < i && m.route[..i][j] == hop;
          assert m.route[j] == m.route[i];
          return false;
        }
        unique := unique + {hop};
        assert m.route[..i + 1] == m.route[..i] + [hop];
      }
      assert m.route[..|m.route|] == m.route;
      return true;
    }

    method OnSend(m: Envelope, token: Option<nat>, env: Env) returns (out: Out)
      ensures out == RunSend(View(), o, m, token, env) && out.r == View()
    {
      hide ValidHops, Prepare, WireOf, Encodable;
      if stopped { return Nothing(View()).(ended := End(token, Some(OperationCanceled))); }
      if m.destination == [] || |m.destination| > o.limits.maxNodeIdBytes {
        return Nothing(View()).(ended := End(token, Some(Errc.InvalidArgument)));
      }
      if |m.payload| > o.limits.maxEnvelopeBytes { return Nothing(View()).(ended := End(token, Some(MessageSize))); }
      if |m.route| > o.limits.maxRouteHops { return Nothing(View()).(ended := End(token, Some(Errc.InvalidArgument))); }
      var ok := CheckRoute(m);
      if !ok { return Nothing(View()).(ended := End(token, Some(Errc.InvalidArgument))); }
      var prepared := Prepare(View(), o, m, env);
      if prepared.Refused? { return Nothing(View()).(ended := End(token, Some(prepared.error))); }
      var e := prepared.e;
      // The encoder throws, and the completion goes down with the task.
      if !e.encrypted && !Encodable(e) { return Nothing(View()).(lost := if token.Some? then [token.value] else []); }
      var wire := WireOf(e);
      if |wire| > o.limits.maxEnvelopeBytes { return Nothing(View()).(ended := End(token, Some(MessageSize))); }
      return Nothing(View()).(
        tasks := [Handoff(id, Target(e, 0), wire, Back(e.source, [], e.messageId, true), false, token)],
        made := [e]);
    }

    method SeenMessage(messageId: U64) returns (was: bool)
      requires ValidOptions(o)
      modifies this`seen
      ensures was == Has(old(seen), messageId) && seen == Touch(old(seen), messageId, 0, 0, o.seenCapacity)
    {
      was := Has(seen, messageId);
      seen := if was then Get(seen, messageId) else Put(seen, messageId, 0, 0, o.seenCapacity);
    }

    method SeenNonce(source: Id, nonce: nat) returns (was: bool)
      requires ValidOptions(o)
      modifies this`nonces
      ensures was == Remembered(old(nonces), source, nonce) && nonces == NonceStep(old(nonces), source, nonce, o.caps)
    {
      was, nonces := CheckNonce(nonces, source, nonce, o.caps);
    }

    method OnDeliver(e: Envelope, env: Env) returns (out: Out)
      requires ValidOptions(o) && e.routePos <= |e.route|
      modifies this`seen, this`nonces
      ensures out == Deliver(old(View()), o, e, env) && out.r == View()
    {
      hide Report, Accept, InTolerance, NonceStep, Touch, Remembered, Has;
      if !InTolerance(o, env.now, e.timestamp) { return Reported(View(), o, BackOf(e), ReplayRejected, env); }
      var replay := SeenNonce(e.source, e.nonce);
      if replay { return Reported(View(), o, BackOf(e), ReplayRejected, env); }
      if o.dedup {
        var duplicate := SeenMessage(e.messageId);
        if duplicate { return Nothing(View()); }
      }
      AcceptKeepsRouter(View(), o, e, env);
      return Accept(View(), o, e, env);
    }

    method OnForward(e: Envelope, env: Env) returns (out: Out)
      requires ValidOptions(o) && e.routePos <= |e.route| <= 255
      modifies this`seen
      ensures out == Forward(old(View()), o, e, env) && out.r == View()
    {
      hide Report, Touch, Has, Encodable, EncodeHeader;
      var back := BackOf(e);
      var duplicate := SeenMessage(e.messageId);
      if duplicate { return Nothing(View()); }
      if !o.forwardEnabled { return Reported(View(), o, back, Unroutable, env); }
      var next := e.destination;
      if e.routePos < |e.route| {
        if e.route[e.routePos] != id { return Reported(View(), o, back, Unroutable, env); }
        next := if e.routePos + 1 < |e.route| then e.route[e.routePos + 1] else e.destination;
      }
      if e.ttl == 0 { return Reported(View(), o, back, TtlExhausted, env); }
      var encoded := EncodeEnvelope(Advanced(e));
      if !encoded.Wire? { return Nothing(View()); }
      return Nothing(View()).(tasks := [Handoff(id, next, encoded.bytes, back, false, None)]);
    }

    method OnReceive(wire: Bytes, env: Env) returns (out: Out)
      requires ValidOptions(o)
      modifies this`seen, this`nonces
      ensures out == Receive(old(View()), o, wire, env) && out.r == View()
    {
      hide Deliver, Forward, Report, DecodeEnvelope;
      if stopped { return Nothing(View()); }
      var decoded := ScanEnvelope(wire, o.limits);
      match decoded
      case Malformed => return Nothing(View());
      case UnknownVersion => return Nothing(View());
      case OkUnknownType(e) =>
        EncodeDecodeUnknown(wire, o.limits);
        return Reported(View(), o, BackOf(e).(silent := false), UnknownType, env);
      case Ok(e) =>
        EncodeDecode(wire, o.limits);
        if e.destination == id {
          out := OnDeliver(e, env);
        } else {
          out := OnForward(e, env);
        }
    }

    method OnHandoff(t: Task, env: Env) returns (out: Out)
      requires t.Handoff?
      modifies this`inFlight
      ensures out == RunHandoff(old(View()), o, t, env) && out.r == View()
    {
      hide Report;
      if stopped { return Nothing(View()).(ended := End(t.token, Some(OperationCanceled))); }
      if !t.isReport {
        var before := inFlight;
        inFlight := inFlight + 1;
        return Nothing(View()).(tasks := [Admit(id, t.next, t.wire, t.back, t.isReport, t.token, before)]);
      }
      out := Route(t, env);
    }

    method OnAdmit(t: Task, env: Env) returns (out: Out)
      requires t.Admit?
      modifies this`inFlight
      ensures out == RunAdmit(old(View()), o, t, env) && out.r == View()
    {
      hide Report;
      if t.before >= o.maxInFlight {
        inFlight := inFlight - 1;
        return Reported(View(), o, t.back, QueueOverflow, env).(ended := End(t.token, Some(NoBufferSpace)));
      }
      out := Route(t, env);
    }

    method Route(t: Task, env: Env) returns (out: Out)
      requires t.Handoff? || t.Admit?
      modifies this`inFlight
      ensures out == LookUp(old(View()), o, t, env) && out.r == View()
    {
      hide Report;
      if t.next !in links {
        if !t.isReport { inFlight := inFlight - 1; }
        return Reported(View(), o, t.back, Unroutable, env).(ended := End(t.token, Some(HostUnreachable)));
      }
      return Nothing(View()).(tasks := [Notify(id, t.next, t.wire, t.back, t.isReport, t.token)]);
    }

    method OnCallback(t: Task, env: Env) returns (out: Out)
      requires t.Callback?
      modifies this`inFlight
      ensures out == RunCallback(old(View()), o, t, env) && out.r == View()
    {
      hide Report;
      if !t.isReport { inFlight := inFlight - 1; }
      out := Nothing(View());
      if t.error.Some? {
        out := Reported(View(), o, t.back, if t.error.value.NoBufferSpace? then QueueOverflow else Unroutable, env);
      }
      out := out.(ended := End(t.token, t.error));
    }
  }

  lemma AcceptKeepsRouter(r: Router, o: Options, e: Envelope, env: Env)
    requires e.routePos <= |e.route|
    ensures Accept(r, o, e, env).r == r
  {
    hide Report, Emit, Unseal;
  }
}
