/** The end-to-end envelope and its wire format. */
module EnvelopeCodec {
  import opened ByteCodec

  type Id = Bytes

  datatype MessageType = Data | Ack | Error | Probe

  datatype Envelope = Envelope(
    version: Byte, kind: MessageType, encrypted: bool, keyId: Byte,
    ttl: U32, nonce: U32, timestamp: U64, messageId: U64,
    source: Id, destination: Id, route: seq<Id>, routePos: Byte, payload: Bytes)

  datatype Limits = Limits(maxEnvelopeBytes: nat, maxNodeIdBytes: nat, maxRouteHops: nat)

  datatype Encoded = Wire(bytes: Bytes) | InvalidArgument | LengthError
  datatype Decoded = Ok(e: Envelope) | OkUnknownType(e: Envelope) | Malformed | UnknownVersion

  const FIXED_HEADER := 28
  const TAIL_HEADER := 4

  function TypeCode(k: MessageType): (c: Byte)
    ensures 1 <= c <= 4
  {
    match k case Data => 1 case Ack => 2 case Error => 3 case Probe => 4
  }

  function TypeOf(c: Byte): (k: MessageType)
    requires 1 <= c <= 4
    ensures TypeCode(k) == c
  {
    if c == 1 then Data else if c == 2 then Ack else if c == 3 then Error else Probe
  }

  // ---------------------------------------------------------------- encoding

  function Fixed(e: Envelope): (s: Bytes)
    ensures |s| == FIXED_HEADER
  {
    [e.version, TypeCode(e.kind), if e.encrypted then 1 else 0, e.keyId]
    + (PutBE(e.ttl, 4) + (PutBE(e.nonce, 4) + (PutBE(e.timestamp, 8) + PutBE(e.messageId, 8))))
  }

  /** The hop list, followed by `rest`. */
  function Hops(route: seq<Id>, rest: Bytes): (s: Bytes)
    ensures |s| >= |rest|
  {
    if route == [] then rest else PutSized(route[0], 2) + Hops(route[1..], rest)
  }

  /** Everything between the fixed part and the payload, followed by `rest`. */
  function Routing(source: Id, destination: Id, route: seq<Id>, routePos: Byte, payloadLen: nat, rest: Bytes): (s: Bytes)
    ensures |s| >= 10 + |rest|
  {
    PutSized(source, 2) + (PutSized(destination, 2) + ([|route| % 256, routePos] + Hops(route, PutBE(payloadLen, 4) + rest)))
  }

  function EncodeHeader(e: Envelope, payloadLen: nat): (s: Bytes)
    ensures |s| >= FIXED_HEADER + 10
  {
    Fixed(e) + Routing(e.source, e.destination, e.route, e.routePos, payloadLen, [])
  }

  lemma {:induction false} HopsSplit(route: seq<Id>, a: Bytes, b: Bytes)
    ensures Hops(route, a + b) == Hops(route, a) + b
  {
    if route != [] {
      HopsSplit(route[1..], a, b);
      Assoc(PutSized(route[0], 2), Hops(route[1..], a), b);
    }
  }

  lemma Assoc(a: Bytes, b: Bytes, c: Bytes)
    ensures a + (b + c) == (a + b) + c
  {}

  /** A header followed by its payload is the right-nested form the scanner peels. */
  lemma HeaderThen(e: Envelope, payloadLen: nat, rest: Bytes)
    ensures EncodeHeader(e, payloadLen) + rest
         == Fixed(e) + Routing(e.source, e.destination, e.route, e.routePos, payloadLen, rest)
  {
    var len := PutBE(payloadLen, 4);
    assert len + [] == len;
    HopsSplit(e.route, len, rest);
    var hops := Hops(e.route, len);
    var counts: Bytes := [|e.route| % 256, e.routePos];
    var dst := PutSized(e.destination, 2);
    var src := PutSized(e.source, 2);
    Assoc(counts, hops, rest);
    Assoc(dst, counts + hops, rest);
    Assoc(src, dst + (counts + hops), rest);
    Assoc(Fixed(e), src + (dst + (counts + hops)), rest);
  }

  predicate ValidId(id: Id) { 1 <= |id| <= 255 }

  /** Ids and route fit their length fields. */
  predicate WellFormed(e: Envelope) {
    && ValidId(e.source) && ValidId(e.destination)
    && |e.route| <= 255 && e.routePos <= |e.route|
    && forall i :: 0 <= i < |e.route| ==> ValidId(e.route[i])
  }

  predicate Encodable(e: Envelope) {
    e.version == 1 && WellFormed(e) && |e.payload| < 0x1_0000_0000
  }

  /** Header and payload, whether or not the encoder would agree to it. */
  function WireOf(e: Envelope): Bytes { EncodeHeader(e, |e.payload|) + e.payload }

  function EncodeEnvelope(e: Envelope): (r: Encoded)
    ensures r.Wire? <==> Encodable(e)
  {
    if e.version != 1 || !ValidId(e.source) || !ValidId(e.destination)
       || |e.route| > 255 || e.routePos > |e.route|
       || exists i :: 0 <= i < |e.route| && !ValidId(e.route[i])
    then InvalidArgument
    else if |e.payload| >= 0x1_0000_0000 then LengthError
    else Wire(WireOf(e))
  }

  // ---------------------------------------------------------------- decoding

  datatype Tail = Tail(source: Id, destination: Id, route: seq<Id>, routePos: Byte, payload: Bytes)

  function TakeId(s: Bytes, max: nat): (r: Option<(Id, Bytes)>)
    ensures r.Some? ==> 1 <= |r.value.0| <= max && |r.value.1| < |s|
  {
    match TakeSized(s, 2)
    case None => None
    case Some(p) => if 1 <= |p.0| <= max then Some(p) else None
  }

  function TakeHops(s: Bytes, n: nat, max: nat): (r: Option<(seq<Id>, Bytes)>)
    ensures r.Some? ==> |r.value.0| == n && |r.value.1| <= |s|
  {
    if n == 0 then Some(([], s))
    else match TakeId(s, max)
      case None => None
      case Some(p) =>
        match TakeHops(p.1, n - 1, max)
        case None => None
        case Some(q) => Some(([p.0] + q.0, q.1))
  }

  function TakePayload(s: Bytes): (r: Option<Bytes>) {
    if |s| < TAIL_HEADER || GetBE(s[..TAIL_HEADER]) != |s| - TAIL_HEADER then None else Some(s[TAIL_HEADER..])
  }

  function TakeRoute(t: Bytes, limits: Limits): (r: Option<(seq<Id>, Byte, Bytes)>) {
    if |t| < 2 || t[0] > limits.maxRouteHops || t[1] > t[0] then None
    else match TakeHops(t[2..], t[0], limits.maxNodeIdBytes)
      case None => None
      case Some(h) =>
        match TakePayload(h.1)
        case None => None
        case Some(payload) => Some((h.0, t[1], payload))
  }

  function TakeTail(s: Bytes, limits: Limits): (r: Option<Tail>) {
    match TakeId(s, limits.maxNodeIdBytes)
    case None => None
    case Some(a) =>
      match TakeId(a.1, limits.maxNodeIdBytes)
      case None => None
      case Some(b) =>
        match TakeRoute(b.1, limits)
        case None => None
        case Some(r) => Some(Tail(a.0, b.0, r.0, r.1, r.2))
  }

  function FieldAt(wire: Bytes, at: nat, k: nat): (n: nat)
    requires at + k <= |wire|
    ensures k == 4 ==> n < 0x1_0000_0000
    ensures k == 8 ==> n < 0x1_0000_0000_0000_0000
  {
    PowTable();
    GetBE(wire[at..at + k])
  }

  function Assemble(wire: Bytes, kind: MessageType, t: Tail): Envelope
    requires |wire| >= FIXED_HEADER
  {
    Envelope(1, kind, wire[2] == 1, wire[3], FieldAt(wire, 4, 4), FieldAt(wire, 8, 4),
             FieldAt(wire, 12, 8), FieldAt(wire, 20, 8), t.source, t.destination, t.route, t.routePos, t.payload)
  }

  function DecodeEnvelope(wire: Bytes, limits: Limits): (r: Decoded) {
    if |wire| < FIXED_HEADER + TAIL_HEADER || |wire| > limits.maxEnvelopeBytes then Malformed
    else if wire[0] != 1 then UnknownVersion
    else if wire[2] > 1 then Malformed
    else match TakeTail(wire[FIXED_HEADER..], limits)
      case None => Malformed
      case Some(t) =>
        if 1 <= wire[1] <= 4 then Ok(Assemble(wire, TypeOf(wire[1]), t))
        else OkUnknownType(Assemble(wire, Data, t))
  }

  /**
   * The scanner as written: one cursor moves over the wire and every read is
   * bounds-checked before it. It agrees with the recursive definition.
   */
  method ScanEnvelope(wire: Bytes, limits: Limits) returns (r: Decoded)
    ensures r == DecodeEnvelope(wire, limits)
  {
    if |wire| < FIXED_HEADER + TAIL_HEADER || |wire| > limits.maxEnvelopeBytes { return Malformed; }
    if wire[0] != 1 { return UnknownVersion; }
    if wire[2] > 1 { return Malformed; }
    var pos := FIXED_HEADER;
    var ok, source, destination;
    ok, source, pos := ScanId(wire, pos, limits.maxNodeIdBytes);
    if !ok { return Malformed; }
    ok, destination, pos := ScanId(wire, pos, limits.maxNodeIdBytes);
    if !ok { return Malformed; }
    var rest := ScanRoute(wire, pos, limits);
    if rest.None? { return Malformed; }
    var t := Tail(source, destination, rest.value.0, rest.value.1, rest.value.2);
    if wire[1] < 1 || wire[1] > 4 { return OkUnknownType(Assemble(wire, Data, t)); }
    return Ok(Assemble(wire, TypeOf(wire[1]), t));
  }

  method ScanRoute(wire: Bytes, start: nat, limits: Limits) returns (r: Option<(seq<Id>, Byte, Bytes)>)
    requires start <= |wire|
    ensures r == TakeRoute(wire[start..], limits)
  {
    var pos := start;
    if pos + 2 > |wire| { return None; }
    var routeLen, routePos := wire[pos], wire[pos + 1];
    if routeLen > limits.maxRouteHops || routePos > routeLen { return None; }
    pos := pos + 2;
    assert wire[start..][2..] == wire[pos..];
    var ok, route;
    ok, route, pos := ScanHops(wire, pos, routeLen, limits.maxNodeIdBytes);
    if !ok || pos + TAIL_HEADER > |wire| { return None; }
    var payloadLen := GetBE(wire[pos..pos + TAIL_HEADER]);
    assert wire[pos..][..TAIL_HEADER] == wire[pos..pos + TAIL_HEADER];
    assert wire[pos..][TAIL_HEADER..] == wire[pos + TAIL_HEADER..];
    pos := pos + TAIL_HEADER;
    if payloadLen != |wire| - pos { return None; }
    return Some((route, routePos, wire[pos..]));
  }

  method ScanHops(wire: Bytes, start: nat, n: nat, max: nat) returns (ok: bool, route: seq<Id>, pos: nat)
    requires start <= |wire|
    ensures pos <= |wire|
    ensures ok <==> TakeHops(wire[start..], n, max).Some?
    ensures ok ==> TakeHops(wire[start..], n, max) == Some((route, wire[pos..]))
  {
    hide TakeId, TakeHops;
    route, pos := [], start;
    ghost var all := TakeHops(wire[pos..], n, max);
    assert all.Some? ==> [] + all.value.0 == all.value.0;
    for i := 0 to n
      invariant pos <= |wire|
      invariant all == Prepend(route, TakeHops(wire[pos..], n - i, max))
    {
      HopThen(route, wire[pos..], n - i, max);
      var got, hop, next := ScanId(wire, pos, max);
      if !got { return false, route, pos; }
      route, pos := route + [hop], next;
    }
    NoHops(wire[pos..], max);
    assert route + [] == route;
    return true, route, pos;
  }

  /** One hop read in front of the rest. */
  lemma HopThen(route: seq<Id>, s: Bytes, n: nat, max: nat)
    requires n > 0
    ensures Prepend(route, TakeHops(s, n, max)) ==
      match TakeId(s, max) case None => None case Some(p) => Prepend(route + [p.0], TakeHops(p.1, n - 1, max))
  {
    hide TakeId;
    if TakeId(s, max).Some? {
      var (hop, rest) := TakeId(s, max).value;
      var more := TakeHops(rest, n - 1, max);
      assert more.Some? ==> route + ([hop] + more.value.0) == route + [hop] + more.value.0;
    }
  }

  lemma NoHops(s: Bytes, max: nat)
    ensures TakeHops(s, 0, max) == Some(([], s))
  {}

  ghost function Prepend(route: seq<Id>, r: Option<(seq<Id>, Bytes)>): Option<(seq<Id>, Bytes)> {
    match r
    case None => None
    case Some(p) => Some((route + p.0, p.1))
  }

  method ScanId(wire: Bytes, pos: nat, max: nat) returns (ok: bool, id: Id, next: nat)
    requires pos <= |wire|
    ensures ok <==> TakeId(wire[pos..], max).Some?
    ensures ok ==> pos < next <= |wire| && TakeId(wire[pos..], max) == Some((id, wire[next..]))
    ensures !ok ==> next <= |wire|
  {
    if pos + 2 > |wire| { return false, [], pos; }
    var n := GetBE(wire[pos..pos + 2]);
    assert wire[pos..][..2] == wire[pos..pos + 2];
    if n == 0 || n > max || pos + 2 + n > |wire| { return false, [], pos; }
    assert wire[pos..][2..2 + n] == wire[pos + 2..pos + 2 + n];
    assert wire[pos..][2 + n..] == wire[pos + 2 + n..];
    return true, wire[pos + 2..pos + 2 + n], pos + 2 + n;
  }

  // ---------------------------------------------------------------- the two are inverse

  /** Within the receiver's limits. */
  predicate Fits(e: Envelope, limits: Limits) {
    && |WireOf(e)| <= limits.maxEnvelopeBytes
    && FitsRouting(e.source, e.destination, e.route, limits)
  }

  lemma TakeIdPut(id: Id, max: nat, rest: Bytes)
    requires ValidId(id)
    ensures TakeId(PutSized(id, 2) + rest, max) == if |id| <= max then Some((id, rest)) else None
  {
    PowTable();
    TakePut(id, 2, rest);
  }

  lemma {:induction false} TakeHopsPut(route: seq<Id>, max: nat, rest: Bytes)
    requires forall i :: 0 <= i < |route| ==> ValidId(route[i])
    ensures TakeHops(Hops(route, rest), |route|, max)
         == if (forall i :: 0 <= i < |route| ==> |route[i]| <= max) then Some((route, rest)) else None
  {
    hide PutSized, TakeId;
    if route != [] {
      var head, tail := route[0], route[1..];
      assert route == [head] + tail;
      TakeIdPut(head, max, Hops(tail, rest));
      TakeHopsPut(tail, max, rest);
      assert (forall i :: 0 <= i < |route| ==> |route[i]| <= max)
        <==> |head| <= max && (forall i :: 0 <= i < |tail| ==> |tail[i]| <= max);
    }
  }

  lemma PutTakeId(s: Bytes, max: nat)
    requires TakeId(s, max).Some?
    ensures PutSized(TakeId(s, max).value.0, 2) + TakeId(s, max).value.1 == s
  {
    PutTake(s, 2);
  }

  lemma {:induction false} PutTakeHops(s: Bytes, n: nat, max: nat)
    requires TakeHops(s, n, max).Some?
    ensures Hops(TakeHops(s, n, max).value.0, TakeHops(s, n, max).value.1) == s
    ensures forall i :: 0 <= i < n ==> 1 <= |TakeHops(s, n, max).value.0[i]| <= max
  {
    if n > 0 {
      PutTakeId(s, max);
      var (id, more) := TakeId(s, max).value;
      PutTakeHops(more, n - 1, max);
      var (route, rest) := TakeHops(s, n, max).value;
      assert route[0] == id && route[1..] == TakeHops(more, n - 1, max).value.0;
      assert Hops(route, rest) == PutSized(id, 2) + Hops(route[1..], rest);
    }
  }

  lemma TakePayloadPut(payload: Bytes)
    ensures TakePayload(PutBE(|payload|, 4) + payload) == if |payload| < 0x1_0000_0000 then Some(payload) else None
  {
    PowTable();
    var s := PutBE(|payload|, 4) + payload;
    assert s[..4] == PutBE(|payload|, 4) && s[4..] == payload;
    if |payload| < 0x1_0000_0000 { GetPut(|payload|, 4); }
  }

  lemma PutTakePayload(s: Bytes)
    requires TakePayload(s).Some?
    ensures var payload := TakePayload(s).value;
            PutBE(|payload|, 4) + payload == s && |payload| < 0x1_0000_0000
  {
    PowTable();
    PutGet(s[..4]);
    assert s == s[..4] + s[4..];
  }

  /** The limits apart from the overall size. */
  predicate FitsRouting(source: Id, destination: Id, route: seq<Id>, limits: Limits) {
    && |source| <= limits.maxNodeIdBytes && |destination| <= limits.maxNodeIdBytes
    && |route| <= limits.maxRouteHops
    && forall i :: 0 <= i < |route| ==> |route[i]| <= limits.maxNodeIdBytes
  }

  lemma TakeRoutePut(route: seq<Id>, routePos: Byte, payload: Bytes, limits: Limits)
    requires |route| <= 255 && routePos <= |route|
    requires forall i :: 0 <= i < |route| ==> ValidId(route[i])
    ensures TakeRoute([|route| % 256, routePos] + Hops(route, PutBE(|payload|, 4) + payload), limits)
         == if && |route| <= limits.maxRouteHops && |payload| < 0x1_0000_0000
               && (forall i :: 0 <= i < |route| ==> |route[i]| <= limits.maxNodeIdBytes)
            then Some((route, routePos, payload)) else None
  {
    var last := PutBE(|payload|, 4) + payload;
    var hops := Hops(route, last);
    var t := [|route| % 256, routePos] + hops;
    assert t[2..] == hops && t[0] == |route| && t[1] == routePos;
    TakeHopsPut(route, limits.maxNodeIdBytes, last);
    TakePayloadPut(payload);
  }

  lemma TakeTailPut(e: Envelope, limits: Limits)
    requires WellFormed(e)
    ensures TakeTail(Routing(e.source, e.destination, e.route, e.routePos, |e.payload|, e.payload), limits)
         == if FitsRouting(e.source, e.destination, e.route, limits) && |e.payload| < 0x1_0000_0000
            then Some(Tail(e.source, e.destination, e.route, e.routePos, e.payload)) else None
  {
    var t := [|e.route| % 256, e.routePos] + Hops(e.route, PutBE(|e.payload|, 4) + e.payload);
    TakeIdPut(e.source, limits.maxNodeIdBytes, PutSized(e.destination, 2) + t);
    TakeIdPut(e.destination, limits.maxNodeIdBytes, t);
    TakeRoutePut(e.route, e.routePos, e.payload, limits);
  }

  lemma PutTakeRoute(t: Bytes, limits: Limits)
    requires TakeRoute(t, limits).Some?
    ensures var (route, routePos, payload) := TakeRoute(t, limits).value;
            && [|route| % 256, routePos] + Hops(route, PutBE(|payload|, 4) + payload) == t
            && |route| <= 255 && |route| <= limits.maxRouteHops && routePos <= |route| && |payload| < 0x1_0000_0000
            && forall i :: 0 <= i < |route| ==> 1 <= |route[i]| <= limits.maxNodeIdBytes
  {
    hide Hops, PutBE, GetBE, TakeHops, TakePayload;
    var n, pos, body := t[0], t[1], t[2..];
    assert t == [n, pos] + body;
    PutTakeHops(body, n, limits.maxNodeIdBytes);
    var (route, rest) := TakeHops(body, n, limits.maxNodeIdBytes).value;
    PutTakePayload(rest);
    assert Hops(route, rest) == body;
  }

  lemma PutTakeTail(s: Bytes, limits: Limits)
    requires TakeTail(s, limits).Some?
    ensures var t := TakeTail(s, limits).value;
            && Routing(t.source, t.destination, t.route, t.routePos, |t.payload|, t.payload) == s
            && |t.source| >= 1 && |t.destination| >= 1
            && FitsRouting(t.source, t.destination, t.route, limits)
            && |t.route| <= 255 && t.routePos <= |t.route|
            && (forall i :: 0 <= i < |t.route| ==> |t.route[i]| >= 1)
            && |t.payload| < 0x1_0000_0000
  {
    PutTakeId(s, limits.maxNodeIdBytes);
    var s1 := TakeId(s, limits.maxNodeIdBytes).value.1;
    PutTakeId(s1, limits.maxNodeIdBytes);
    PutTakeRoute(TakeId(s1, limits.maxNodeIdBytes).value.1, limits);
  }

  lemma Middle(w: Bytes, a: Bytes, b: Bytes, c: Bytes)
    requires w == a + (b + c)
    ensures |w| == |a| + |b| + |c| && w[|a|..|a| + |b|] == b && w == (a + b) + c
  {}

  lemma FixedFields(e: Envelope, rest: Bytes)
    ensures var w := Fixed(e) + rest;
            && w[0] == e.version && w[1] == TypeCode(e.kind) && w[2] == (if e.encrypted then 1 else 0) && w[3] == e.keyId
            && FieldAt(w, 4, 4) == e.ttl && FieldAt(w, 8, 4) == e.nonce
            && FieldAt(w, 12, 8) == e.timestamp && FieldAt(w, 20, 8) == e.messageId
            && w[FIXED_HEADER..] == rest
  {
    var w := Fixed(e) + rest;
    var flags: Bytes := [e.version, TypeCode(e.kind), if e.encrypted then 1 else 0, e.keyId];
    var ttl, nonce, stamp, id := PutBE(e.ttl, 4), PutBE(e.nonce, 4), PutBE(e.timestamp, 8), PutBE(e.messageId, 8);
    Assoc(stamp, id, rest);
    Assoc(nonce, stamp + id, rest);
    Assoc(ttl, nonce + (stamp + id), rest);
    Assoc(flags, ttl + (nonce + (stamp + id)), rest);
    Middle(w, flags, ttl, nonce + (stamp + (id + rest)));
    Middle(w, flags + ttl, nonce, stamp + (id + rest));
    Middle(w, flags + ttl + nonce, stamp, id + rest);
    Middle(w, flags + ttl + nonce + stamp, id, rest);
    FieldPut(e);
  }

  lemma FieldPut(e: Envelope)
    ensures GetBE(PutBE(e.ttl, 4)) == e.ttl && GetBE(PutBE(e.nonce, 4)) == e.nonce
    ensures GetBE(PutBE(e.timestamp, 8)) == e.timestamp && GetBE(PutBE(e.messageId, 8)) == e.messageId
  {
    PowTable();
    GetPut(e.ttl, 4);
    GetPut(e.nonce, 4);
    GetPut(e.timestamp, 8);
    GetPut(e.messageId, 8);
  }

  lemma FixedFromFields(w: Bytes, kind: MessageType, t: Tail)
    requires |w| >= FIXED_HEADER && w[0] == 1 && w[2] <= 1
    ensures Fixed(Assemble(w, kind, t)) == [1, TypeCode(kind)] + w[2..FIXED_HEADER]
  {
    PutGet(w[4..8]);
    PutGet(w[8..12]);
    PutGet(w[12..20]);
    PutGet(w[20..28]);
    assert w[2..28] == [w[2], w[3]] + w[4..8] + w[8..12] + w[12..20] + w[20..28];
  }

  lemma DecodeFixed(e: Envelope, rest: Bytes, limits: Limits)
    requires e.version == 1 && |rest| >= TAIL_HEADER && FIXED_HEADER + |rest| <= limits.maxEnvelopeBytes
    ensures DecodeEnvelope(Fixed(e) + rest, limits)
         == match TakeTail(rest, limits)
            case None => Malformed
            case Some(t) => Ok(e.(source := t.source, destination := t.destination, route := t.route,
                                  routePos := t.routePos, payload := t.payload))
  {
    FixedFields(e, rest);
  }

  /**
   * Decoding what was written, for any limits: the envelope itself exactly when
   * the encoder would have agreed to it and it is within the receiver's limits.
   */
  lemma DecodeWire(e: Envelope, limits: Limits)
    requires WellFormed(e)
    ensures DecodeEnvelope(WireOf(e), limits)
         == if Encodable(e) && Fits(e, limits) then Ok(e)
            else if e.version != 1 && |WireOf(e)| <= limits.maxEnvelopeBytes then UnknownVersion
            else Malformed
  {
    var rest := Routing(e.source, e.destination, e.route, e.routePos, |e.payload|, e.payload);
    HeaderThen(e, |e.payload|, e.payload);
    FixedFields(e, rest);
    if e.version == 1 && FIXED_HEADER + |rest| <= limits.maxEnvelopeBytes {
      DecodeFixed(e, rest, limits);
      TakeTailPut(e, limits);
    }
  }

  /** Decoding what was encoded gives it back exactly when it is within the receiver's limits. */
  lemma DecodeEncode(e: Envelope, limits: Limits)
    requires Encodable(e)
    ensures DecodeEnvelope(EncodeEnvelope(e).bytes, limits) == if Fits(e, limits) then Ok(e) else Malformed
  {
    hide DecodeEnvelope, EncodeHeader;
    DecodeWire(e, limits);
  }

  lemma AssembledEncodes(wire: Bytes, kind: MessageType, t: Tail)
    requires |wire| >= FIXED_HEADER && wire[0] == 1 && wire[2] <= 1
    requires Routing(t.source, t.destination, t.route, t.routePos, |t.payload|, t.payload) == wire[FIXED_HEADER..]
    ensures EncodeHeader(Assemble(wire, kind, t), |t.payload|) + t.payload == wire[1 := TypeCode(kind)]
  {
    FixedFromFields(wire, kind, t);
    HeaderThen(Assemble(wire, kind, t), |t.payload|, t.payload);
    WithType(wire, TypeCode(kind));
    hide EncodeHeader, Fixed, Routing;
  }

  lemma WithType(wire: Bytes, c: Byte)
    requires |wire| >= FIXED_HEADER && wire[0] == 1
    ensures wire[1 := c] == ([1, c] + wire[2..FIXED_HEADER]) + wire[FIXED_HEADER..]
  {}

  /** Every accepted wire is the encoding of what was decoded, so decoding loses nothing. */
  lemma EncodeDecode(wire: Bytes, limits: Limits)
    requires DecodeEnvelope(wire, limits).Ok?
    ensures var e := DecodeEnvelope(wire, limits).e;
            && WireOf(e) == wire
            && Fits(e, limits)
            && (limits.maxNodeIdBytes <= 255 ==> Encodable(e))
  {
    var t := TakeTail(wire[FIXED_HEADER..], limits).value;
    PutTakeTail(wire[FIXED_HEADER..], limits);
    AssembledEncodes(wire, TypeOf(wire[1]), t);
    assert wire[1 := wire[1]] == wire;
  }

  /** Routing fields of an envelope whose type byte is unregistered are still exact. */
  lemma EncodeDecodeUnknown(wire: Bytes, limits: Limits)
    requires DecodeEnvelope(wire, limits).OkUnknownType?
    ensures var e := DecodeEnvelope(wire, limits).e;
            && WireOf(e) == wire[1 := TypeCode(Data)]
            && (limits.maxNodeIdBytes <= 255 ==> Encodable(e))
  {
    var t := TakeTail(wire[FIXED_HEADER..], limits).value;
    PutTakeTail(wire[FIXED_HEADER..], limits);
    AssembledEncodes(wire, Data, t);
  }

  // ---------------------------------------------------------------- what forwarding and AEAD touch

  /** Index of the route_pos byte. */
  function RoutePosAt(e: Envelope): nat {
    FIXED_HEADER + 2 + |e.source| + 2 + |e.destination| + 1
  }

  lemma FixedOffset(e: Envelope, ttl: U32)
    ensures forall i :: 0 <= i < FIXED_HEADER && !(4 <= i < 8) ==> Fixed(e.(ttl := ttl))[i] == Fixed(e)[i]
  {}

  lemma RoutingOffset(e: Envelope, pos: Byte, n: nat, rest: Bytes)
    ensures var a := Routing(e.source, e.destination, e.route, e.routePos, n, rest);
            var b := Routing(e.source, e.destination, e.route, pos, n, rest);
            && |a| == |b| && RoutePosAt(e) - FIXED_HEADER < |a|
            && a[RoutePosAt(e) - FIXED_HEADER := pos] == b
  {
    var src, dst := PutSized(e.source, 2), PutSized(e.destination, 2);
    var tail := Hops(e.route, PutBE(n, 4) + rest);
    var counts: Bytes := [|e.route| % 256, e.routePos];
    var counts': Bytes := [|e.route| % 256, pos];
    var k := |dst| + 1;
    assert (dst + (counts + tail))[k := pos] == dst + (counts' + tail);
    assert (src + (dst + (counts + tail)))[|src| + k := pos] == src + (dst + (counts + tail))[k := pos];
  }

  /**
   * Rewriting ttl and route_pos, which is all a relay does, changes no other
   * byte of the wire and never its length.
   */
  lemma RewriteBytes(e: Envelope, ttl: U32, pos: Byte)
    requires Encodable(e) && pos <= |e.route|
    ensures var e' := e.(ttl := ttl, routePos := pos);
            && Encodable(e')
            && |EncodeEnvelope(e').bytes| == |EncodeEnvelope(e).bytes|
            && forall i :: 0 <= i < |EncodeEnvelope(e).bytes| && !(4 <= i < 8) && i != RoutePosAt(e)
                 ==> EncodeEnvelope(e').bytes[i] == EncodeEnvelope(e).bytes[i]
  {
    var e' := e.(ttl := ttl, routePos := pos);
    HeaderThen(e, |e.payload|, e.payload);
    HeaderThen(e', |e.payload|, e.payload);
    FixedOffset(e, ttl);
    RoutingOffset(e, pos, |e.payload|, e.payload);
  }

  /** The additional data an AEAD payload is bound to: the header with ttl and route_pos zeroed. */
  function Aad(e: Envelope, payloadLen: nat): Bytes {
    EncodeHeader(e.(ttl := 0, routePos := 0), payloadLen)
  }

  /** Equal up to the two fields relays rewrite and the payload. */
  predicate SameMessage(a: Envelope, b: Envelope) {
    a.(ttl := 0, routePos := 0, payload := []) == b.(ttl := 0, routePos := 0, payload := [])
  }

  lemma HeaderEnd(e: Envelope, n: nat)
    ensures var h := EncodeHeader(e, n); h[|h| - 4..] == PutBE(n, 4)
  {
    HeaderThen(e, n, []);
    var len := PutBE(n, 4);
    assert len + [] == len && [] + len == len;
    HopsSplit(e.route, [], len);
    var front := Hops(e.route, []);
    Assoc([|e.route| % 256, e.routePos], front, len);
    Assoc(PutSized(e.destination, 2), [|e.route| % 256, e.routePos] + front, len);
    Assoc(PutSized(e.source, 2), PutSized(e.destination, 2) + ([|e.route| % 256, e.routePos] + front), len);
  }

  /**
   * Sender and destination derive the same additional data exactly when every
   * field but ttl, route_pos and the payload agrees: hops are free to rewrite
   * those two, and nothing else can change unnoticed.
   */
  lemma AadBinds(a: Envelope, b: Envelope, n: nat, m: nat)
    requires Encodable(a) && Encodable(b) && n < 0x1_0000_0000 && m < 0x1_0000_0000
    ensures Aad(a, n) == Aad(b, m) <==> SameMessage(a, b) && n == m
  {
    hide EncodeHeader;
    if Aad(a, n) == Aad(b, m) {
      HeaderEnd(a.(ttl := 0, routePos := 0), n);
      HeaderEnd(b.(ttl := 0, routePos := 0), m);
      PowTable();
      GetPut(n, 4);
      GetPut(m, 4);
      HeaderDetermines(a.(ttl := 0, routePos := 0), b.(ttl := 0, routePos := 0), n);
    }
    HeaderIgnoresPayload(a.(ttl := 0, routePos := 0), n);
    HeaderIgnoresPayload(b.(ttl := 0, routePos := 0), m);
  }

  lemma HeaderIgnoresPayload(e: Envelope, n: nat)
    ensures EncodeHeader(e, n) == EncodeHeader(e.(payload := []), n)
  {}

  lemma HeaderDetermines(a: Envelope, b: Envelope, n: nat)
    requires Encodable(a) && Encodable(b) && n < 0x1_0000_0000
    requires EncodeHeader(a, n) == EncodeHeader(b, n)
    ensures a.(payload := []) == b.(payload := [])
  {
    var zeros := seq(n, _ => 0 as Byte);
    var a', b' := a.(payload := zeros), b.(payload := zeros);
    assert EncodeHeader(a', n) == EncodeHeader(a, n) && EncodeHeader(b', n) == EncodeHeader(b, n);
    assert EncodeEnvelope(a').bytes == EncodeEnvelope(b').bytes;
    var wide := Limits(|EncodeEnvelope(a').bytes|, 255, 255);
    DecodeEncode(a', wide);
    DecodeEncode(b', wide);
    assert a.(payload := []) == a'.(payload := []);
  }

  /** The layout, on one envelope: every field in its place. */
  lemma Layout()
    ensures WireOf(Envelope(1, Probe, true, 9, 2, 3, 4, 5, [65], [66, 67], [[68]], 1, [69, 70])) ==
      ([1, 4, 1, 9] + ([0, 0, 0, 2] + ([0, 0, 0, 3] + ([0, 0, 0, 0, 0, 0, 0, 4] + [0, 0, 0, 0, 0, 0, 0, 5]))))
      + ([0, 1, 65] + ([0, 2, 66, 67] + ([1, 1] + ([0, 1, 68] + ([0, 0, 0, 2] + [69, 70])))))
  {
    var e := Envelope(1, Probe, true, 9, 2, 3, 4, 5, [65], [66, 67], [[68]], 1, [69, 70]);
    HeaderThen(e, 2, [69, 70]);
    Padded();
    hide PutBE, Hops;
    assert Hops([[68]], PutBE(2, 4) + [69, 70]) == PutSized([68], 2) + (PutBE(2, 4) + [69, 70]) by { OneHop([68], PutBE(2, 4) + [69, 70]); }
    hide EncodeHeader;
  }

  lemma OneHop(id: Id, rest: Bytes)
    ensures Hops([id], rest) == PutSized(id, 2) + rest
  {
    assert [id][1..] == [];
  }

  lemma Padded()
    ensures PutBE(2, 4) == [0, 0, 0, 2] && PutBE(3, 4) == [0, 0, 0, 3]
    ensures PutBE(4, 8) == [0, 0, 0, 0, 0, 0, 0, 4] && PutBE(5, 8) == [0, 0, 0, 0, 0, 0, 0, 5]
    ensures PutSized([65], 2) == [0, 1, 65] && PutSized([66, 67], 2) == [0, 2, 66, 67] && PutSized([68], 2) == [0, 1, 68]
  {
    PutSmall(2, 4);
    PutSmall(3, 4);
    PutSmall(4, 8);
    PutSmall(5, 8);
    PutSmall(1, 2);
    PutSmall(2, 2);
    hide PutBE;
  }
}
