/** What a router hands to its application, reports, answers, relays and sends: exactly when, and exactly what. */
module RouterLaws {
  import opened ByteCodec
  import opened Seqs
  import opened EnvelopeCodec
  import opened Lru
  import opened ReplayGuard
  import opened Router

  // ---------------------------------------------------------------- arrivals

  /** The envelope is for this node, and gets past its clock, its nonce guard and its id guard. */
  predicate Admitted(r: Router, o: Options, e: Envelope, env: Env) {
    && e.destination == r.id && InTolerance(o, env.now, e.timestamp)
    && !Remembered(r.nonces, e.source, e.nonce) && (o.dedup ==> !Has(r.seen, e.messageId))
  }

  /** What the payload says: itself, or what opens under the key, the message's nonce and its header as the author wrote it. */
  predicate Reads(r: Router, e: Envelope, env: Env, plain: Bytes) {
    if e.encrypted
    then e.keyId in r.keys
         && env.open(r.keys[e.keyId], PutBE(e.messageId, 8) + PutBE(e.nonce, 4),
                     EncodeHeader(e.(ttl := 0, routePos := 0), |e.payload|), e.payload) == Some(plain)
    else plain == e.payload
  }

  ghost predicate Readable(r: Router, e: Envelope, env: Env) { exists plain :: Reads(r, e, env, plain) }

  /** The clock check, for times before the sign bit: the two differ by at most the tolerance. */
  lemma ClockExact(o: Options, now: U64, stamp: U64)
    requires now < 0x8000_0000_0000_0000 && stamp < 0x8000_0000_0000_0000
    ensures InTolerance(o, now, stamp) <==> stamp <= now + o.tolerance && now <= stamp + o.tolerance
  {}

  lemma ReadsOnce(r: Router, q: Router, e: Envelope, env: Env)
    requires q.keys == r.keys
    ensures Unseal(q, e, env).Some? <==> Readable(r, e, env)
    ensures forall plain :: Reads(r, e, env, plain) <==> Unseal(q, e, env) == Some(plain)
  {
    hide EncodeHeader, PutBE;
    if Unseal(q, e, env).Some? { assert Reads(r, e, env, Unseal(q, e, env).value); }
  }

  /** A destination behaves as its acceptance does once the guards are passed. */
  lemma DeliverSplits(r: Router, o: Options, e: Envelope, env: Env)
    requires ValidOptions(o) && e.routePos <= |e.route| && e.destination == r.id
    ensures var out := Deliver(r, o, e, env);
            && (Admitted(r, o, e, env) ==>
                  exists q: Router :: q.keys == r.keys && q.id == r.id && q.stopped == r.stopped && out == Accept(q, o, e, env))
            && (!Admitted(r, o, e, env) ==> out.delivered == [] && out.told == [])
  {
    hide Report, Accept, InTolerance, NonceStep, Touch, Remembered, Has;
    var r1 := r.(nonces := NonceStep(r.nonces, e.source, e.nonce, o.caps));
    var r2 := if o.dedup then r1.(seen := Touch(r1.seen, e.messageId, 0, 0, o.seenCapacity)) else r1;
    if Admitted(r, o, e, env) { assert Deliver(r, o, e, env) == Accept(r2, o, e, env); }
  }

  lemma AcceptHands(r: Router, q: Router, o: Options, e: Envelope, env: Env)
    requires e.routePos <= |e.route| && q.keys == r.keys
    ensures var out := Accept(q, o, e, env);
            if (e.kind.Data? || e.kind.Ack?) && Readable(r, e, env)
            then exists plain :: Reads(r, e, env, plain) && out.delivered == [e.(payload := plain)]
            else out.delivered == []
  {
    ReadsOnce(r, q, e, env);
    hide Unseal, Reads, Readable, Report, Emit;
    if (e.kind.Data? || e.kind.Ack?) && Readable(r, e, env) { assert Reads(r, e, env, Unseal(q, e, env).value); }
  }

  lemma ForwardHandsNothing(r: Router, o: Options, e: Envelope, env: Env)
    requires ValidOptions(o) && e.routePos <= |e.route| <= 255
    ensures Forward(r, o, e, env).delivered == [] && Forward(r, o, e, env).told == []
  {
    hide Report, Touch, Has, EncodeEnvelope;
  }

  /**
   * What an application is handed, for every router, wire and environment: a
   * message exactly when the wire decodes to one addressed to this node, in
   * tolerance, not seen before, of type data or ack, and readable; and then
   * exactly that message with what it says in clear.
   */
  lemma HandedExactly(r: Router, o: Options, wire: Bytes, env: Env)
    requires ValidOptions(o)
    ensures var d, out := DecodeEnvelope(wire, o.limits), Receive(r, o, wire, env);
            if !r.stopped && d.Ok? && Admitted(r, o, d.e, env) && (d.e.kind.Data? || d.e.kind.Ack?) && Readable(r, d.e, env)
            then exists plain :: Reads(r, d.e, env, plain) && out.delivered == [d.e.(payload := plain)]
            else out.delivered == []
  {
    hide Report, Deliver, Forward, Accept, DecodeEnvelope, Admitted, Reads, Readable;
    match DecodeEnvelope(wire, o.limits)
    case Ok(e) =>
      EncodeDecode(wire, o.limits);
      if e.destination == r.id {
        DeliverSplits(r, o, e, env);
        if Admitted(r, o, e, env) {
          var q: Router :| q.keys == r.keys && q.id == r.id && q.stopped == r.stopped && Deliver(r, o, e, env) == Accept(q, o, e, env);
          AcceptHands(r, q, o, e, env);
        }
      } else {
        ForwardHandsNothing(r, o, e, env);
        assert !Admitted(r, o, e, env) by { NotForUs(r, o, e, env); }
      }
    case OkUnknownType(e) => EncodeDecodeUnknown(wire, o.limits);
    case _ =>
  }

  lemma NotForUs(r: Router, o: Options, e: Envelope, env: Env)
    requires e.destination != r.id
    ensures !Admitted(r, o, e, env)
  {}

  // ---------------------------------------------------------------- failures told

  lemma AcceptTells(r: Router, q: Router, o: Options, e: Envelope, env: Env)
    requires e.routePos <= |e.route| && q.keys == r.keys
    ensures var out := Accept(q, o, e, env);
            && (!e.kind.Error? || !Readable(r, e, env) ==> out.told == [])
            && (e.kind.Error? ==> forall plain :: Reads(r, e, env, plain) ==>
                  out.told == if |plain| < 9 then [] else [Told(e.(payload := plain), plain[0], FieldAt(plain, 1, 8))])
  {
    ReadsOnce(r, q, e, env);
    hide Unseal, Reads, Readable, Report, Emit, FieldAt;
  }

  /** What a report says: a code, the id of the message it is about, and anything after that. */
  function Saying(code: Byte, messageId: U64, rest: Bytes): Bytes { [code] + (PutBE(messageId, 8) + rest) }

  /**
   * A report that gets past its author's guards tells the application exactly
   * the code the reporting router wrote and the id of the message it is about.
   */
  lemma ToldExactly(r: Router, o: Options, wire: Bytes, env: Env, code: Byte, messageId: U64, rest: Bytes)
    requires ValidOptions(o) && !r.stopped && DecodeEnvelope(wire, o.limits).Ok?
    requires var e := DecodeEnvelope(wire, o.limits).e;
             e.kind.Error? && Admitted(r, o, e, env) && Reads(r, e, env, Saying(code, messageId, rest))
    ensures Receive(r, o, wire, env).told ==
              [Told(DecodeEnvelope(wire, o.limits).e.(payload := Saying(code, messageId, rest)), code, messageId)]
  {
    hide DecodeEnvelope, Reads, Readable, Admitted, Accept, Deliver, Forward, Report, Saying, FieldAt;
    var e := DecodeEnvelope(wire, o.limits).e;
    EncodeDecode(wire, o.limits);
    AdmittedIsOurs(r, o, e, env);
    DeliverSplits(r, o, e, env);
    var q: Router :| q.keys == r.keys && q.id == r.id && q.stopped == r.stopped && Deliver(r, o, e, env) == Accept(q, o, e, env);
    AcceptTells(r, q, o, e, env);
    SaidExactly(code, messageId, rest);
  }

  lemma AdmittedIsOurs(r: Router, o: Options, e: Envelope, env: Env)
    requires Admitted(r, o, e, env)
    ensures e.destination == r.id
  {}

  lemma SaidExactly(code: Byte, messageId: U64, rest: Bytes)
    ensures var plain := Saying(code, messageId, rest); |plain| >= 9 && plain[0] == code && FieldAt(plain, 1, 8) == messageId
  {
    PowTable();
    GetPut(messageId, 8);
    assert Saying(code, messageId, rest)[1..9] == PutBE(messageId, 8);
  }

  /** Nobody is told anything by an arrival that is not a report for this node with at least nine readable bytes. */
  lemma ToldNothing(r: Router, o: Options, wire: Bytes, env: Env)
    requires ValidOptions(o)
    requires r.stopped || !DecodeEnvelope(wire, o.limits).Ok? ||
             var e := DecodeEnvelope(wire, o.limits).e; !(e.kind.Error? && Admitted(r, o, e, env)) || forall plain :: Reads(r, e, env, plain) ==> |plain| < 9
    ensures Receive(r, o, wire, env).told == []
  {
    hide Report, Deliver, Forward, Accept, DecodeEnvelope, Admitted, Reads, Readable;
    match DecodeEnvelope(wire, o.limits)
    case Ok(e) =>
      EncodeDecode(wire, o.limits);
      if e.destination == r.id {
        DeliverSplits(r, o, e, env);
        if Admitted(r, o, e, env) {
          var q: Router :| q.keys == r.keys && q.id == r.id && q.stopped == r.stopped && Deliver(r, o, e, env) == Accept(q, o, e, env);
          AcceptTells(r, q, o, e, env);
          SomethingRead(r, e, env);
        }
      } else {
        ForwardHandsNothing(r, o, e, env);
      }
    case OkUnknownType(e) => EncodeDecodeUnknown(wire, o.limits);
    case _ =>
  }

  lemma SomethingRead(r: Router, e: Envelope, env: Env)
    ensures Readable(r, e, env) ==> exists plain :: Reads(r, e, env, plain)
  {
    hide Reads;
  }

  // ---------------------------------------------------------------- envelopes made by an arrival

  /** A report from `at` about a message of `author`, back along `route`. */
  predicate IsReport(g: Envelope, at: Id, o: Options, author: Id, route: seq<Id>, messageId: U64, code: Byte) {
    && g.version == 1 && g.kind.Error? && !g.encrypted && g.ttl == o.maxHops
    && g.source == at && g.destination == author && g.route == route && g.routePos == 0
    && g.payload == [code] + PutBE(messageId, 8)
  }

  /** The work that starts an envelope of the router's own on its way: past admission, owing nobody, its failure unreported. */
  function Launch(g: Envelope): Task {
    Handoff(g.source, if g.route == [] then g.destination else g.route[0], WireOf(g), Back(g.source, [], g.messageId, true), true, None)
  }

  ghost predicate Sound(back: Back) {
    ValidId(back.source) && |back.route| <= 255 && forall i :: 0 <= i < |back.route| ==> ValidId(back.route[i])
  }

  lemma ReportMakes(r: Router, o: Options, back: Back, code: Code, env: Env)
    requires ValidOptions(o) && ValidId(r.id) && Sound(back)
    ensures var (tasks, made) := Report(r, o, back, code, env);
            if back.silent || back.source == r.id || r.stopped then tasks == [] && made == []
            else |made| == 1 && IsReport(made[0], r.id, o, back.source, back.route, back.messageId, CodeByte(code)) && tasks == [Launch(made[0])]
  {
    hide PutBE, EncodeHeader;
    LongId(back.messageId);
  }

  lemma LongId(id: U64)
    ensures |PutBE(id, 8)| == 8
  {}

  lemma BackSound(e: Envelope)
    requires WellFormed(e)
    ensures Sound(BackOf(e))
  {
    forall i | 0 <= i < e.routePos ensures ValidId(BackOf(e).route[i]) {
      assert BackOf(e).route[i] == e.route[e.routePos - 1 - i];
    }
  }

  /** The code an arrival is complained about with, if it is. */
  ghost function Complaint(r: Router, o: Options, wire: Bytes, env: Env): Option<Byte> {
    if r.stopped then None
    else match DecodeEnvelope(wire, o.limits)
      case OkUnknownType(e) => if e.source == r.id then None else Some(5)
      case Ok(e) =>
        if e.kind.Error? || e.source == r.id then None
        else if e.destination == r.id then
          if !InTolerance(o, env.now, e.timestamp) || Remembered(r.nonces, e.source, e.nonce) then Some(3)
          else if Admitted(r, o, e, env) && !Readable(r, e, env) then Some(4)
          else None
        else if Has(r.seen, e.messageId) then None
        else if !o.forwardEnabled || (e.routePos < |e.route| && e.route[e.routePos] != r.id) then Some(1)
        else if e.ttl == 0 then Some(2)
        else None
      case _ => None
  }

  /** The plaintext of a probe that is to be acknowledged. */
  ghost predicate Probed(r: Router, o: Options, wire: Bytes, env: Env, plain: Bytes) {
    && !r.stopped && DecodeEnvelope(wire, o.limits).Ok?
    && var e := DecodeEnvelope(wire, o.limits).e; e.kind.Probe? && Admitted(r, o, e, env) && Reads(r, e, env, plain)
  }

  /** An ack of the probe `e` read as `plain`. */
  predicate IsAck(g: Envelope, r: Router, o: Options, e: Envelope, plain: Bytes)
    requires e.routePos <= |e.route|
  {
    && g.version == 1 && g.kind.Ack? && !g.encrypted && g.ttl == o.maxHops
    && g.source == r.id && g.destination == e.source && g.route == Reverse(e.route[..e.routePos]) && g.routePos == 0
    && g.payload == PutBE(e.messageId, 8) + plain
  }

  lemma AckMakes(q: Router, o: Options, e: Envelope, plain: Bytes, env: Env)
    requires ValidOptions(o) && WellFormed(e) && ValidId(q.id)
    ensures var (tasks, made) := Emit(q, AckEnvelope(q, o, e.(payload := plain), env));
            if |plain| + 8 < 0x1_0000_0000 then |made| == 1 && IsAck(made[0], q, o, e, plain) && tasks == [Launch(made[0])]
            else tasks == [] && made == []
  {
    BackSound(e);
    LongId(e.messageId);
    hide PutBE, EncodeHeader;
  }

  /** What an acceptance makes: a complaint that nothing can be read, an ack for a probe, nothing else. */
  lemma AcceptMakes(r: Router, q: Router, o: Options, e: Envelope, env: Env)
    requires ValidOptions(o) && WellFormed(e) && q.keys == r.keys && q.id == r.id && !q.stopped && ValidId(r.id)
    ensures var out := Accept(q, o, e, env);
            if !Readable(r, e, env) then
              if e.kind.Error? || e.source == r.id then out.made == [] && out.tasks == []
              else ComplainedOut(out, r, o, e, 4)
            else if e.kind.Probe? then forall plain :: Reads(r, e, env, plain) ==> AckedOut(out, r, o, e, plain)
            else out.made == [] && out.tasks == []
  {
    ReadsOnce(r, q, e, env);
    BackSound(e);
    ReportMakes(q, o, BackOf(e), DecryptFailed, env);
    if Unseal(q, e, env).Some? { AckMakes(q, o, e, Unseal(q, e, env).value, env); }
    hide Unseal, Reads, Readable, Report, IsReport, Launch, IsAck, Emit, AckEnvelope;
  }

  /** The probe is acknowledged, unless the ack would be too long to encode. */
  predicate AckedOut(out: Out, r: Router, o: Options, e: Envelope, plain: Bytes)
    requires e.routePos <= |e.route|
  {
    if |plain| + 8 < 0x1_0000_0000
    then |out.made| == 1 && IsAck(out.made[0], r, o, e, plain) && out.tasks == [Launch(out.made[0])]
    else out.made == [] && out.tasks == []
  }

  /** A complaint with this code about `e`, and nothing else. */
  predicate ComplainedOut(out: Out, r: Router, o: Options, e: Envelope, code: Byte)
    requires e.routePos <= |e.route|
  {
    && |out.made| == 1 && IsReport(out.made[0], r.id, o, e.source, Reverse(e.route[..e.routePos]), e.messageId, code)
    && out.tasks == [Launch(out.made[0])]
  }

  predicate NothingOut(out: Out) { out.made == [] && out.tasks == [] }

  /** A complaint about `e`, which its author hears of unless it is itself an error or the author is this node. */
  lemma ReportedMakes(r: Router, q: Router, o: Options, e: Envelope, code: Code, env: Env)
    requires ValidOptions(o) && WellFormed(e) && q.id == r.id && !q.stopped && ValidId(r.id)
    ensures var out := Reported(q, o, BackOf(e), code, env);
            if e.kind.Error? || e.source == r.id then NothingOut(out) else ComplainedOut(out, r, o, e, CodeByte(code))
  {
    BackSound(e);
    ReportMakes(q, o, BackOf(e), code, env);
    hide Report, IsReport, Launch, Sound;
  }

  lemma DeliverMakes(r: Router, o: Options, e: Envelope, env: Env)
    requires ValidOptions(o) && WellFormed(e) && e.destination == r.id && !r.stopped && ValidId(r.id)
    ensures var out := Deliver(r, o, e, env);
            if !InTolerance(o, env.now, e.timestamp) || Remembered(r.nonces, e.source, e.nonce) then
              if e.kind.Error? || e.source == r.id then NothingOut(out) else ComplainedOut(out, r, o, e, 3)
            else if !Admitted(r, o, e, env) then NothingOut(out)
            else if !Readable(r, e, env) then
              if e.kind.Error? || e.source == r.id then NothingOut(out) else ComplainedOut(out, r, o, e, 4)
            else if e.kind.Probe? then forall plain :: Reads(r, e, env, plain) ==> AckedOut(out, r, o, e, plain)
            else NothingOut(out)
  {
    if Admitted(r, o, e, env) {
      DeliverSplits(r, o, e, env);
      var q: Router :| q.keys == r.keys && q.id == r.id && q.stopped == r.stopped && Deliver(r, o, e, env) == Accept(q, o, e, env);
      hide Deliver, Accept, InTolerance, Remembered, Has, Reads, Readable, ComplainedOut, AckedOut;
      AcceptMakes(r, q, o, e, env);
    } else {
      DeliverTurnsAway(r, o, e, env);
      hide Deliver, InTolerance, Remembered, Has;
    }
  }

  lemma DeliverTurnsAway(r: Router, o: Options, e: Envelope, env: Env)
    requires ValidOptions(o) && WellFormed(e) && e.destination == r.id && !r.stopped && ValidId(r.id) && !Admitted(r, o, e, env)
    ensures var out := Deliver(r, o, e, env);
            if !InTolerance(o, env.now, e.timestamp) || Remembered(r.nonces, e.source, e.nonce) then
              if e.kind.Error? || e.source == r.id then NothingOut(out) else ComplainedOut(out, r, o, e, 3)
            else NothingOut(out)
  {
    var r1 := r.(nonces := NonceStep(r.nonces, e.source, e.nonce, o.caps));
    ReportedMakes(r, r, o, e, ReplayRejected, env);
    ReportedMakes(r, r1, o, e, ReplayRejected, env);
    hide Reported, Accept, InTolerance, NonceStep, Touch, Remembered, Has, ComplainedOut;
  }

  /** The envelope as passed on: one hop less to spend, one more consumed. */
  predicate IsNext(next: Envelope, e: Envelope) {
    && 0 < e.ttl && next == e.(ttl := e.ttl - 1, routePos := next.routePos)
    && next.routePos == if e.routePos < |e.route| then e.routePos + 1 else e.routePos
  }

  /** The relayed envelope handed off to the name after this node, or to the destination, with the hops consumed so far as return path. */
  ghost predicate RelayedOut(out: Out, r: Router, e: Envelope)
    requires e.routePos <= |e.route|
  {
    && out.made == [] && |out.tasks| == 1 && out.tasks[0].Handoff?
    && var t := out.tasks[0];
       && t.at == r.id && !t.isReport && t.token == None
       && t.next == (if e.routePos + 1 < |e.route| then e.route[e.routePos + 1] else e.destination)
       && t.back == Back(e.source, Reverse(e.route[..e.routePos]), e.messageId, e.kind.Error?)
       && exists next :: IsNext(next, e) && t.wire == WireOf(next)
  }

  lemma ForwardMakes(r: Router, o: Options, e: Envelope, env: Env)
    requires ValidOptions(o) && Encodable(e) && e.destination != r.id && !r.stopped && ValidId(r.id)
    ensures var out := Forward(r, o, e, env);
            if Has(r.seen, e.messageId) then NothingOut(out)
            else if !o.forwardEnabled || (e.routePos < |e.route| && e.route[e.routePos] != r.id) then
              if e.kind.Error? || e.source == r.id then NothingOut(out) else ComplainedOut(out, r, o, e, 1)
            else if e.ttl == 0 then
              if e.kind.Error? || e.source == r.id then NothingOut(out) else ComplainedOut(out, r, o, e, 2)
            else RelayedOut(out, r, e)
  {
    var r1 := r.(seen := Touch(r.seen, e.messageId, 0, 0, o.seenCapacity));
    ReportedMakes(r, r1, o, e, Unroutable, env);
    ReportedMakes(r, r1, o, e, TtlExhausted, env);
    if e.ttl > 0 { assert IsNext(Advanced(e), e); }
    hide Reported, Touch, Has, WireOf, ComplainedOut, IsNext;
  }

  /**
   * What an arrival sets off, for every router, wire and environment: a report
   * with exactly the code of its complaint, an ack of exactly the probe read, the
   * envelope passed on with one hop spent, or nothing.
   */
  lemma SetOffExactly(r: Router, o: Options, wire: Bytes, env: Env)
    requires ValidOptions(o) && ValidId(r.id)
    ensures var d, out, complaint := DecodeEnvelope(wire, o.limits), Receive(r, o, wire, env), Complaint(r, o, wire, env);
            if complaint.Some? then (d.Ok? || d.OkUnknownType?) && d.e.routePos <= |d.e.route| && ComplainedOut(out, r, o, d.e, complaint.value)
            else if exists plain :: Probed(r, o, wire, env, plain) then
              d.e.routePos <= |d.e.route| && forall plain :: Probed(r, o, wire, env, plain) ==> AckedOut(out, r, o, d.e, plain)
            else if Relays(r, o, wire) then d.e.routePos <= |d.e.route| && RelayedOut(out, r, d.e)
            else NothingOut(out)
  {
    hide DecodeEnvelope, Deliver, Forward, Report, ComplainedOut, AckedOut, RelayedOut, InTolerance, Remembered, Has, Reads;
    if !r.stopped {
      match DecodeEnvelope(wire, o.limits)
      case Ok(e) =>
        EncodeDecode(wire, o.limits);
        if e.destination == r.id {
          DeliverMakes(r, o, e, env);
          if e.kind.Probe? && Admitted(r, o, e, env) && Readable(r, e, env) {
            var plain :| Reads(r, e, env, plain);
            assert Probed(r, o, wire, env, plain);
          }
        } else {
          ForwardMakes(r, o, e, env);
        }
      case OkUnknownType(e) =>
        EncodeDecodeUnknown(wire, o.limits);
        UnknownMakes(r, o, e, env);
      case _ =>
    }
  }

  /** The wire is one to pass on. */
  predicate Relays(r: Router, o: Options, wire: Bytes) {
    && !r.stopped && DecodeEnvelope(wire, o.limits).Ok?
    && var e := DecodeEnvelope(wire, o.limits).e;
       && e.destination != r.id && !Has(r.seen, e.messageId) && o.forwardEnabled && 0 < e.ttl
       && (e.routePos < |e.route| ==> e.route[e.routePos] == r.id)
  }

  lemma UnknownMakes(r: Router, o: Options, e: Envelope, env: Env)
    requires ValidOptions(o) && WellFormed(e) && !r.stopped && ValidId(r.id)
    ensures var out := Reported(r, o, BackOf(e).(silent := false), UnknownType, env);
            if e.source == r.id then NothingOut(out) else ComplainedOut(out, r, o, e, 5)
  {
    BackSound(e);
    ReportMakes(r, o, BackOf(e).(silent := false), UnknownType, env);
    hide Report, IsReport, Launch, Sound;
  }

  // ---------------------------------------------------------------- envelopes made by a handoff that fails

  /** The code a failing handoff is reported with: 6 for want of room, here or on the link, 1 for want of a way. */
  function FailureCode(r: Router, o: Options, t: Task): Option<Byte> {
    match t
    case Handoff(_, next, _, _, isReport, _) => if !r.stopped && isReport && next !in r.links then Some(1) else None
    case Admit(_, next, _, _, _, _, before) =>
      if before >= o.maxInFlight then Some(6) else if next !in r.links then Some(1) else None
    case Callback(_, error, _, _, _) =>
      if error.None? then None else if error.value == NoBufferSpace then Some(6) else Some(1)
    case _ => None
  }

  function HandedOff(r: Router, o: Options, t: Task, env: Env): Out
    requires t.Handoff? || t.Admit? || t.Callback?
  {
    if t.Handoff? then RunHandoff(r, o, t, env) else if t.Admit? then RunAdmit(r, o, t, env) else RunCallback(r, o, t, env)
  }

  /** One report with this code, unless nobody is to know. */
  ghost predicate FailedOut(out: Out, r: Router, o: Options, back: Back, code: Byte) {
    if back.silent || back.source == r.id || r.stopped then NothingOut(out)
    else |out.made| == 1 && out.tasks == [Launch(out.made[0])]
         && IsReport(out.made[0], r.id, o, back.source, back.route, back.messageId, code)
  }

  lemma FailureMakes(r: Router, q: Router, o: Options, back: Back, code: Code, env: Env, ended: seq<Ended>)
    requires ValidOptions(o) && ValidId(r.id) && Sound(back) && q.id == r.id && q.stopped == r.stopped
    ensures FailedOut(Reported(q, o, back, code, env).(ended := ended), r, o, back, CodeByte(code))
  {
    ReportMakes(q, o, back, code, env);
    hide Report, IsReport, Launch, Sound;
  }

  lemma LookUpReported(r: Router, o: Options, t: Task, env: Env)
    requires ValidOptions(o) && ValidId(r.id) && (t.Handoff? || t.Admit?) && Sound(t.back)
    ensures var out := LookUp(r, o, t, env); if t.next in r.links then out.made == [] else FailedOut(out, r, o, t.back, 1)
  {
    var q := if t.isReport then r else r.(inFlight := r.inFlight - 1);
    FailureMakes(r, q, o, t.back, Unroutable, env, End(t.token, Some(HostUnreachable)));
    hide Reported, FailedOut, Sound;
  }

  /** A failing handoff is reported exactly once, with that code, to where its envelope came from, unless nobody is to know. */
  lemma FailureReported(r: Router, o: Options, t: Task, env: Env)
    requires ValidOptions(o) && ValidId(r.id) && (t.Handoff? || t.Admit? || t.Callback?) && Sound(t.back)
    ensures var out, code := HandedOff(r, o, t, env), FailureCode(r, o, t);
            if code.None? then out.made == [] else FailedOut(out, r, o, t.back, code.value)
  {
    hide Reported, LookUp, FailedOut, Sound;
    if t.Callback? {
      var q := if t.isReport then r else r.(inFlight := r.inFlight - 1);
      FailureMakes(r, q, o, t.back, Unroutable, env, End(t.token, t.error));
      FailureMakes(r, q, o, t.back, QueueOverflow, env, End(t.token, t.error));
    } else {
      LookUpReported(r, o, t, env);
      FailureMakes(r, r.(inFlight := r.inFlight - 1), o, t.back, QueueOverflow, env, End(t.token, Some(NoBufferSpace)));
    }
  }

  // ---------------------------------------------------------------- what is sent

  /** What a message lacks is filled in: budget, nonce, time and id; it comes from this node, no hop consumed. */
  predicate FilledIn(e: Envelope, r: Router, o: Options, m: Envelope, env: Env) {
    && e.source == r.id && e.routePos == 0 && e.destination == m.destination && e.route == m.route
    && e.version == m.version && e.kind == m.kind && e.encrypted == m.encrypted && e.keyId == m.keyId
    && e.ttl == (if m.ttl == 0 then o.maxHops else m.ttl) && e.nonce == (if m.nonce == 0 then env.freshNonce else m.nonce)
    && e.timestamp == (if m.timestamp == 0 then env.now else m.timestamp)
    && e.messageId == (if m.messageId == 0 then env.freshId else m.messageId)
  }

  /** Its payload as asked: as it is, or sealed under the key, the message's nonce and its header with the sealed length. */
  predicate Carries(e: Envelope, r: Router, m: Envelope, env: Env) {
    if m.encrypted
    then m.keyId in r.keys
         && env.seal(r.keys[m.keyId], PutBE(e.messageId, 8) + PutBE(e.nonce, 4),
                     EncodeHeader(e.(ttl := 0, routePos := 0), |m.payload| + 16), m.payload) == Some(e.payload)
    else e.payload == m.payload
  }

  /** Whatever is sent is the message asked for, filled in and sealed as asked, handed off to its first hop with its completion. */
  lemma SentAsAsked(r: Router, o: Options, m: Envelope, token: Option<nat>, env: Env)
    ensures var out := RunSend(r, o, m, token, env);
            && |out.made| <= 1 && (out.made == [] <==> out.tasks == [])
            && (out.made != [] ==>
                  var e := out.made[0];
                  && FilledIn(e, r, o, m, env) && Carries(e, r, m, env)
                  && out.tasks == [Handoff(r.id, if m.route == [] then m.destination else m.route[0], WireOf(e),
                                           Back(r.id, [], e.messageId, true), false, token)])
  {
    hide PutBE, EncodeHeader, Refusal, Encodable;
    var out := RunSend(r, o, m, token, env);
    if out.made != [] && m.encrypted {
      var e0, e := SendFresh(r, o, m, env), out.made[0];
      HeaderIgnoresPayload(e0.(ttl := 0, routePos := 0), |m.payload| + 16);
      HeaderIgnoresPayload(e.(ttl := 0, routePos := 0), |m.payload| + 16);
    }
  }
}
