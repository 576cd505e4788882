/** Wire formats of the point-to-point link: frames, handshake payloads, trust updates. */
module LinkCodec {
  import opened ByteCodec

  type Id = Bytes

  const NONCE_BYTES := 32
  const KEY_BYTES := 32
  const SIGNATURE_BYTES := 64

  // ---------------------------------------------------------------- frames

  datatype FrameType = Hello | Ping | Pong | Request | Response | Notify | EpochConfig | HelloAuth

  datatype Frame = Frame(kind: FrameType, id: U64, payload: Bytes)

  function FrameCode(k: FrameType): (c: Byte)
    ensures 1 <= c <= 8
  {
    match k
    case Hello => 1
    case Ping => 2
    case Pong => 3
    case Request => 4
    case Response => 5
    case Notify => 6
    case EpochConfig => 7
    case HelloAuth => 8
  }

  function FrameOf(c: Byte): (k: FrameType)
    requires 1 <= c <= 8
    ensures FrameCode(k) == c
  {
    match c
    case 1 => Hello
    case 2 => Ping
    case 3 => Pong
    case 4 => Request
    case 5 => Response
    case 6 => Notify
    case 7 => EpochConfig
    case _ => HelloAuth
  }

  /** Only requests and responses carry a nonzero id. */
  predicate IdRule(k: FrameType, id: nat) {
    if k.Request? || k.Response? then id != 0 else id == 0
  }

  function FrameBody(f: Frame): (s: Bytes)
    ensures |s| == 10 + |f.payload|
  {
    [1, FrameCode(f.kind)] + (PutBE(f.id, 8) + f.payload)
  }

  predicate FrameEncodable(f: Frame) { 10 + |f.payload| < 0x1_0000_0000 }

  /** The encoder; a payload too long for the length field throws instead. */
  function EncodeFrame(f: Frame): (s: Bytes)
    requires FrameEncodable(f)
    ensures |s| == 14 + |f.payload|
  {
    PutSized(FrameBody(f), 4)
  }

  function DecodeFrame(body: Bytes, maxFrameBytes: nat): (r: Option<Frame>) {
    if |body| < 10 || |body| > maxFrameBytes || body[0] != 1 || body[1] < 1 || body[1] > 8 then None
    else
      PowTable();
      var id := GetBE(body[2..10]);
      if IdRule(FrameOf(body[1]), id) then Some(Frame(FrameOf(body[1]), id, body[10..])) else None
  }

  /** What a receiver with this frame limit accepts. */
  predicate WellFormed(f: Frame, maxFrameBytes: nat) {
    IdRule(f.kind, f.id) && 10 + |f.payload| <= maxFrameBytes
  }

  lemma DecodeFrameBody(f: Frame, max: nat)
    ensures DecodeFrame(FrameBody(f), max) == if WellFormed(f, max) then Some(f) else None
  {
    PowTable();
    GetPut(f.id, 8);
    var body := FrameBody(f);
    assert body[2..10] == PutBE(f.id, 8);
    assert body[10..] == f.payload;
  }

  lemma FrameBodyDecode(body: Bytes, max: nat)
    requires DecodeFrame(body, max).Some?
    ensures FrameBody(DecodeFrame(body, max).value) == body && WellFormed(DecodeFrame(body, max).value, max)
  {
    PutGet(body[2..10]);
    assert body == [body[0], body[1]] + (body[2..10] + body[10..]);
  }

  // ---------------------------------------------------------------- primitive readers

  function TakeBE(s: Bytes, k: nat): (r: Option<(nat, Bytes)>)
    ensures r.Some? ==> r.value.0 < Pow256(k) && |r.value.1| + k == |s|
  {
    if |s| < k then None else Some((GetBE(s[..k]), s[k..]))
  }

  function TakeFixed(s: Bytes, n: nat): (r: Option<(Bytes, Bytes)>)
    ensures r.Some? ==> |r.value.0| == n && |r.value.1| + n == |s|
  {
    if |s| < n then None else Some((s[..n], s[n..]))
  }

  lemma TakeBEPut(n: nat, k: nat, rest: Bytes)
    requires n < Pow256(k)
    ensures TakeBE(PutBE(n, k) + rest, k) == Some((n, rest))
  {
    GetPut(n, k);
    var s := PutBE(n, k) + rest;
    assert s[..k] == PutBE(n, k) && s[k..] == rest;
  }

  lemma PutTakeBE(s: Bytes, k: nat)
    requires TakeBE(s, k).Some?
    ensures PutBE(TakeBE(s, k).value.0, k) + TakeBE(s, k).value.1 == s
  {
    PutGet(s[..k]);
    assert s == s[..k] + s[k..];
  }

  lemma TakeFixedPut(a: Bytes, rest: Bytes)
    ensures TakeFixed(a + rest, |a|) == Some((a, rest))
  {
    assert (a + rest)[..|a|] == a && (a + rest)[|a|..] == rest;
  }

  // ---------------------------------------------------------------- handshake payloads

  /**
   * version | node id | epoch | tail. The hello challenge carries a 32-byte
   * nonce as tail, the signed response a 64-byte signature.
   */
  function EncodeIdentity(id: Id, epoch: U64, tail: Bytes): Bytes {
    [1] + (PutSized(id, 4) + (PutBE(epoch, 8) + tail))
  }

  function DecodeIdentity(payload: Bytes, tailBytes: nat): (r: Option<(Id, U64, Bytes)>)
    ensures r.Some? ==> |r.value.2| == tailBytes
  {
    if |payload| < 1 || payload[0] != 1 then None
    else match TakeSized(payload[1..], 4)
      case None => None
      case Some(a) =>
        match TakeBE(a.1, 8)
        case None => None
        case Some(b) => PowTable(); if |b.1| == tailBytes then Some((a.0, b.0, b.1)) else None
  }

  lemma DecodeEncodeIdentity(id: Id, epoch: U64, tail: Bytes, tailBytes: nat)
    requires |id| < 0x1_0000_0000
    ensures DecodeIdentity(EncodeIdentity(id, epoch, tail), tailBytes)
         == if |tail| == tailBytes then Some((id, epoch, tail)) else None
  {
    PowTable();
    var rest := PutBE(epoch, 8) + tail;
    assert EncodeIdentity(id, epoch, tail)[1..] == PutSized(id, 4) + rest;
    TakePut(id, 4, rest);
    TakeBEPut(epoch, 8, tail);
  }

  lemma EncodeDecodeIdentity(payload: Bytes, tailBytes: nat)
    requires DecodeIdentity(payload, tailBytes).Some?
    ensures var (id, epoch, tail) := DecodeIdentity(payload, tailBytes).value;
            EncodeIdentity(id, epoch, tail) == payload && |id| < 0x1_0000_0000
  {
    PowTable();
    PutTake(payload[1..], 4);
    PutTakeBE(TakeSized(payload[1..], 4).value.1, 8);
    assert payload == [payload[0]] + payload[1..];
  }

  // ---------------------------------------------------------------- signature input

  /** ASCII "protorelay/node-auth/v1". */
  const AUTH_SEP: Bytes := [112, 114, 111, 116, 111, 114, 101, 108, 97, 121, 47, 110, 111, 100, 101, 45, 97, 117, 116, 104, 47, 118, 49]

  /** Byte-wise lexicographic order of node ids. */
  predicate Less(a: Id, b: Id) {
    b != [] && (a == [] || a[0] < b[0] || (a[0] == b[0] && Less(a[1..], b[1..])))
  }

  lemma {:induction false} LessTotal(a: Id, b: Id)
    ensures a == b ==> !Less(a, b)
    ensures a != b ==> (Less(a, b) <==> !Less(b, a))
  {
    if a != [] && b != [] && a[0] == b[0] {
      LessTotal(a[1..], b[1..]);
      assert a == [a[0]] + a[1..] && b == [b[0]] + b[1..];
    }
  }

  function OrderedMessage(loId: Id, loNonce: Bytes, hiId: Id, hiNonce: Bytes): Bytes {
    AUTH_SEP + (PutSized(loId, 4) + (loNonce + (PutSized(hiId, 4) + hiNonce)))
  }

  /** Both identities and both nonces, ordered by id. */
  function AuthMessage(aId: Id, aNonce: Bytes, bId: Id, bNonce: Bytes): Bytes {
    if Less(bId, aId) then OrderedMessage(bId, bNonce, aId, aNonce) else OrderedMessage(aId, aNonce, bId, bNonce)
  }

  predicate Party(id: Id, nonce: Bytes) { |id| < 0x1_0000_0000 && |nonce| == NONCE_BYTES }

  lemma OrderedMessageInjective(a: Id, m: Bytes, b: Id, n: Bytes, a': Id, m': Bytes, b': Id, n': Bytes)
    requires Party(a, m) && Party(b, n) && Party(a', m') && Party(b', n')
    requires OrderedMessage(a, m, b, n) == OrderedMessage(a', m', b', n')
    ensures a == a' && m == m' && b == b' && n == n'
  {
    PowTable();
    var t, t' := PutSized(b, 4) + n, PutSized(b', 4) + n';
    var s, s' := PutSized(a, 4) + (m + t), PutSized(a', 4) + (m' + t');
    TakeFixedPut(AUTH_SEP, s);
    TakeFixedPut(AUTH_SEP, s');
    TakePut(a, 4, m + t);
    TakePut(a', 4, m' + t');
    TakeFixedPut(m, t);
    TakeFixedPut(m', t');
    TakePut(b, 4, n);
    TakePut(b', 4, n');
  }

  /** Both sides of a handshake compute the same bytes, unless one id meets itself with two nonces. */
  lemma AuthMessageSymmetric(a: Id, m: Bytes, b: Id, n: Bytes)
    requires Party(a, m) && Party(b, n)
    ensures AuthMessage(a, m, b, n) == AuthMessage(b, n, a, m) <==> a != b || m == n
  {
    LessTotal(a, b);
    if a == b && AuthMessage(a, m, b, n) == AuthMessage(b, n, a, m) {
      OrderedMessageInjective(a, m, b, n, b, n, a, m);
    }
  }

  /** The signed bytes determine the unordered pair of (id, nonce) parties, and nothing else does. */
  lemma AuthMessageInjective(a: Id, m: Bytes, b: Id, n: Bytes, a': Id, m': Bytes, b': Id, n': Bytes)
    requires Party(a, m) && Party(b, n) && Party(a', m') && Party(b', n')
    requires a != b && a' != b'
    ensures AuthMessage(a, m, b, n) == AuthMessage(a', m', b', n')
       <==> ((a, m, b, n) == (a', m', b', n') || (a, m, b, n) == (b', n', a', m'))
  {
    AuthMessageSymmetric(a, m, b, n);
    AuthMessageSymmetric(a', m', b', n');
    LessTotal(a, b);
    LessTotal(a', b');
    if AuthMessage(a, m, b, n) == AuthMessage(a', m', b', n') {
      if Less(b, a) {
        if Less(b', a') { OrderedMessageInjective(b, n, a, m, b', n', a', m'); }
        else { OrderedMessageInjective(b, n, a, m, a', m', b', n'); }
      } else {
        if Less(b', a') { OrderedMessageInjective(a, m, b, n, b', n', a', m'); }
        else { OrderedMessageInjective(a, m, b, n, a', m', b', n'); }
      }
    }
  }

  // ---------------------------------------------------------------- trust updates

  datatype Neighbor = Neighbor(id: Id, key: Bytes)
  datatype Update = Update(epoch: U64, neighbors: seq<Neighbor>, revoked: seq<Id>)

  function PutNeighbors(ns: seq<Neighbor>, rest: Bytes): Bytes {
    if ns == [] then rest else PutSized(ns[0].id, 4) + (ns[0].key + PutNeighbors(ns[1..], rest))
  }

  function PutIds(ids: seq<Id>, rest: Bytes): Bytes {
    if ids == [] then rest else PutSized(ids[0], 4) + PutIds(ids[1..], rest)
  }

  /** The canonical encoding of an update, followed by `rest`. */
  function UpdateThen(u: Update, rest: Bytes): Bytes {
    [1] + (PutBE(u.epoch, 8) + (PutBE(|u.neighbors|, 4)
        + PutNeighbors(u.neighbors, PutBE(|u.revoked|, 4) + PutIds(u.revoked, rest))))
  }

  function EncodeUpdate(u: Update): Bytes { UpdateThen(u, []) }

  function TakeNeighbors(s: Bytes, n: nat): (r: Option<(seq<Neighbor>, Bytes)>)
    ensures r.Some? ==> |r.value.0| == n
  {
    if n == 0 then Some(([], s))
    else match TakeSized(s, 4)
      case None => None
      case Some(a) =>
        match TakeFixed(a.1, KEY_BYTES)
        case None => None
        case Some(k) =>
          match TakeNeighbors(k.1, n - 1)
          case None => None
          case Some(q) => Some(([Neighbor(a.0, k.0)] + q.0, q.1))
  }

  function TakeIds(s: Bytes, n: nat): (r: Option<(seq<Id>, Bytes)>)
    ensures r.Some? ==> |r.value.0| == n
  {
    if n == 0 then Some(([], s))
    else match TakeSized(s, 4)
      case None => None
      case Some(a) =>
        match TakeIds(a.1, n - 1)
        case None => None
        case Some(q) => Some(([a.0] + q.0, q.1))
  }

  /** The revoked list and the trailing signature. */
  function TakeRevoked(s: Bytes): (r: Option<(seq<Id>, Bytes)>) {
    match TakeBE(s, 4)
    case None => None
    case Some(c) =>
      match TakeIds(c.1, c.0)
      case None => None
      case Some(q) => if |q.1| == SIGNATURE_BYTES then Some(q) else None
  }

  function TakeBody(s: Bytes): (r: Option<(seq<Neighbor>, seq<Id>, Bytes)>) {
    match TakeBE(s, 4)
    case None => None
    case Some(c) =>
      match TakeNeighbors(c.1, c.0)
      case None => None
      case Some(q) =>
        match TakeRevoked(q.1)
        case None => None
        case Some(w) => Some((q.0, w.0, w.1))
  }

  function DecodeUpdate(payload: Bytes): (r: Option<(Update, Bytes)>) {
    if |payload| < SIGNATURE_BYTES + 1 || payload[0] != 1 then None
    else match TakeBE(payload[1..], 8)
      case None => None
      case Some(e) =>
        PowTable();
        match TakeBody(e.1)
        case None => None
        case Some(b) => Some((Update(e.0, b.0, b.1), b.2))
  }

  /** Counts and lengths fit their fields and every key has its fixed size. */
  predicate UpdateEncodable(u: Update) {
    && |u.neighbors| < 0x1_0000_0000 && |u.revoked| < 0x1_0000_0000
    && (forall i :: 0 <= i < |u.neighbors| ==> |u.neighbors[i].id| < 0x1_0000_0000 && |u.neighbors[i].key| == KEY_BYTES)
    && (forall i :: 0 <= i < |u.revoked| ==> |u.revoked[i]| < 0x1_0000_0000)
  }

  lemma {:induction false} TakeNeighborsPut(ns: seq<Neighbor>, rest: Bytes)
    requires forall i :: 0 <= i < |ns| ==> |ns[i].id| < 0x1_0000_0000 && |ns[i].key| == KEY_BYTES
    ensures TakeNeighbors(PutNeighbors(ns, rest), |ns|) == Some((ns, rest))
  {
    if ns != [] {
      PowTable();
      var more := PutNeighbors(ns[1..], rest);
      TakePut(ns[0].id, 4, ns[0].key + more);
      TakeFixedPut(ns[0].key, more);
      TakeNeighborsPut(ns[1..], rest);
      assert ns == [ns[0]] + ns[1..];
    }
  }

  /** A field with a 4-byte length, put back. */
  lemma PutTakeLong(s: Bytes)
    requires TakeSized(s, 4).Some?
    ensures var (id, rest) := TakeSized(s, 4).value; PutSized(id, 4) + rest == s && |id| < 0x1_0000_0000
  {
    PowTable();
    PutTake(s, 4);
  }

  lemma {:induction false} PutTakeNeighbors(s: Bytes, n: nat)
    requires TakeNeighbors(s, n).Some?
    ensures var (ns, rest) := TakeNeighbors(s, n).value;
            && PutNeighbors(ns, rest) == s
            && forall i :: 0 <= i < n ==> |ns[i].id| < 0x1_0000_0000 && |ns[i].key| == KEY_BYTES
    decreases n
  {
    hide PutSized, TakeSized;
    if n > 0 {
      var (id, s1) := TakeSized(s, 4).value;
      PutTakeLong(s);
      var (key, s2) := TakeFixed(s1, KEY_BYTES).value;
      assert s1 == key + s2;
      PutTakeNeighbors(s2, n - 1);
      var (ns, rest) := TakeNeighbors(s, n).value;
      var (more, _) := TakeNeighbors(s2, n - 1).value;
      assert ns == [Neighbor(id, key)] + more && ns[1..] == more;
      forall i | 0 <= i < n ensures |ns[i].id| < 0x1_0000_0000 && |ns[i].key| == KEY_BYTES {
        if i > 0 { assert ns[i] == more[i - 1]; }
      }
    }
  }

  lemma {:induction false} TakeIdsPut(ids: seq<Id>, rest: Bytes)
    requires forall i :: 0 <= i < |ids| ==> |ids[i]| < 0x1_0000_0000
    ensures TakeIds(PutIds(ids, rest), |ids|) == Some((ids, rest))
  {
    if ids != [] {
      PowTable();
      TakePut(ids[0], 4, PutIds(ids[1..], rest));
      TakeIdsPut(ids[1..], rest);
      assert ids == [ids[0]] + ids[1..];
    }
  }

  lemma {:induction false} PutTakeIds(s: Bytes, n: nat)
    requires TakeIds(s, n).Some?
    ensures var (ids, rest) := TakeIds(s, n).value;
            && PutIds(ids, rest) == s
            && forall i :: 0 <= i < n ==> |ids[i]| < 0x1_0000_0000
  {
    if n > 0 {
      PowTable();
      PutTake(s, 4);
      var (id, s1) := TakeSized(s, 4).value;
      PutTakeIds(s1, n - 1);
      var (ids, rest) := TakeIds(s, n).value;
      assert ids[0] == id && ids[1..] == TakeIds(s1, n - 1).value.0;
    }
  }

  lemma TakeBodyPut(u: Update, signature: Bytes)
    requires UpdateEncodable(u)
    ensures TakeBody(PutBE(|u.neighbors|, 4)
              + PutNeighbors(u.neighbors, PutBE(|u.revoked|, 4) + PutIds(u.revoked, signature)))
         == if |signature| == SIGNATURE_BYTES then Some((u.neighbors, u.revoked, signature)) else None
  {
    hide PutIds, PutNeighbors, PutBE, TakeBE, TakeIds, TakeNeighbors;
    PowTable();
    var ids := PutIds(u.revoked, signature);
    var rev := PutBE(|u.revoked|, 4) + ids;
    TakeBEPut(|u.neighbors|, 4, PutNeighbors(u.neighbors, rev));
    TakeNeighborsPut(u.neighbors, rev);
    TakeBEPut(|u.revoked|, 4, ids);
    TakeIdsPut(u.revoked, signature);
  }

  lemma PutTakeRevoked(s: Bytes)
    requires TakeRevoked(s).Some?
    ensures var (ids, signature) := TakeRevoked(s).value;
            && PutBE(|ids|, 4) + PutIds(ids, signature) == s
            && |ids| < 0x1_0000_0000 && |signature| == SIGNATURE_BYTES
            && forall i :: 0 <= i < |ids| ==> |ids[i]| < 0x1_0000_0000
  {
    PowTable();
    PutTakeBE(s, 4);
    var (n, t) := TakeBE(s, 4).value;
    PutTakeIds(t, n);
  }

  lemma PutTakeBody(s: Bytes)
    requires TakeBody(s).Some?
    ensures var (ns, ids, signature) := TakeBody(s).value;
            && PutBE(|ns|, 4) + PutNeighbors(ns, PutBE(|ids|, 4) + PutIds(ids, signature)) == s
            && UpdateEncodable(Update(0, ns, ids)) && |signature| == SIGNATURE_BYTES
  {
    PowTable();
    PutTakeBE(s, 4);
    var (n, t) := TakeBE(s, 4).value;
    PutTakeNeighbors(t, n);
    PutTakeRevoked(TakeNeighbors(t, n).value.1);
  }

  lemma {:induction false} PutIdsSplit(ids: seq<Id>, a: Bytes, b: Bytes)
    ensures PutIds(ids, a) + b == PutIds(ids, a + b)
  {
    if ids != [] { PutIdsSplit(ids[1..], a, b); }
  }

  lemma {:induction false} PutNeighborsSplit(ns: seq<Neighbor>, a: Bytes, b: Bytes)
    ensures PutNeighbors(ns, a) + b == PutNeighbors(ns, a + b)
  {
    if ns != [] {
      PutNeighborsSplit(ns[1..], a, b);
      var head, key, more := PutSized(ns[0].id, 4), ns[0].key, PutNeighbors(ns[1..], a);
      assert (head + (key + more)) + b == head + (key + (more + b));
    }
  }

  /** Appending a signature to the canonical encoding. */
  lemma UpdateSplit(u: Update, signature: Bytes)
    ensures EncodeUpdate(u) + signature == UpdateThen(u, signature)
  {
    var count := PutBE(|u.revoked|, 4);
    PutIdsSplit(u.revoked, [], signature);
    assert [] + signature == signature;
    var ids := PutIds(u.revoked, []);
    assert (count + ids) + signature == count + (ids + signature);
    PutNeighborsSplit(u.neighbors, count + ids, signature);
    var body := PutNeighbors(u.neighbors, count + ids);
    var e, n := PutBE(u.epoch, 8), PutBE(|u.neighbors|, 4);
    assert ([1] + (e + (n + body))) + signature == [1] + (e + (n + (body + signature)));
  }

  /** Decoding a signed update returns it, exactly when the signature has its fixed length. */
  lemma DecodeEncodeUpdate(u: Update, signature: Bytes)
    requires UpdateEncodable(u)
    ensures DecodeUpdate(EncodeUpdate(u) + signature)
         == if |signature| == SIGNATURE_BYTES then Some((u, signature)) else None
  {
    PowTable();
    UpdateSplit(u, signature);
    var body := PutBE(|u.neighbors|, 4) + PutNeighbors(u.neighbors, PutBE(|u.revoked|, 4) + PutIds(u.revoked, signature));
    var payload := UpdateThen(u, signature);
    assert payload[1..] == PutBE(u.epoch, 8) + body;
    TakeBEPut(u.epoch, 8, body);
    TakeBodyPut(u, signature);
  }

  /**
   * Every accepted payload is the canonical encoding of its content followed by
   * the signature, so the signed prefix determines the content.
   */
  lemma EncodeDecodeUpdate(payload: Bytes)
    requires DecodeUpdate(payload).Some?
    ensures var (u, signature) := DecodeUpdate(payload).value;
            && UpdateEncodable(u) && |signature| == SIGNATURE_BYTES
            && EncodeUpdate(u) + signature == payload
            && EncodeUpdate(u) == payload[..|payload| - SIGNATURE_BYTES]
  {
    var (u, signature) := DecodeUpdate(payload).value;
    PutTakeBE(payload[1..], 8);
    var rest := TakeBE(payload[1..], 8).value.1;
    PutTakeBody(rest);
    assert payload == [1] + payload[1..];
    assert UpdateThen(u, signature) == payload;
    UpdateSplit(u, signature);
    assert (EncodeUpdate(u) + signature)[..|EncodeUpdate(u)|] == EncodeUpdate(u);
  }

  /** Two accepted payloads with the same signed prefix carry the same content. */
  lemma SignedPrefixDetermines(p: Bytes, q: Bytes)
    requires DecodeUpdate(p).Some? && DecodeUpdate(q).Some?
    requires p[..|p| - SIGNATURE_BYTES] == q[..|q| - SIGNATURE_BYTES]
    ensures DecodeUpdate(p).value.0 == DecodeUpdate(q).value.0
  {
    EncodeDecodeUpdate(p);
    EncodeDecodeUpdate(q);
    var zeros := seq(SIGNATURE_BYTES, _ => 0 as Byte);
    DecodeEncodeUpdate(DecodeUpdate(p).value.0, zeros);
    DecodeEncodeUpdate(DecodeUpdate(q).value.0, zeros);
  }

  /** The layouts, on one frame and one challenge: every field in its place. */
  lemma Layout()
    ensures EncodeFrame(Frame(Request, 5, [65, 66])) == [0, 0, 0, 12] + ([1, 4] + ([0, 0, 0, 0, 0, 0, 0, 5] + [65, 66]))
    ensures EncodeIdentity([65], 6, [66]) == [1] + (([0, 0, 0, 1] + [65]) + ([0, 0, 0, 0, 0, 0, 0, 6] + [66]))
  {
    Padded();
    hide PutBE;
    var body := FrameBody(Frame(Request, 5, [65, 66]));
    assert body == [1, 4] + ([0, 0, 0, 0, 0, 0, 0, 5] + [65, 66]);
  }

  lemma Padded()
    ensures PutBE(5, 8) == [0, 0, 0, 0, 0, 0, 0, 5] && PutBE(6, 8) == [0, 0, 0, 0, 0, 0, 0, 6]
    ensures PutBE(12, 4) == [0, 0, 0, 12] && PutBE(1, 4) == [0, 0, 0, 1]
  {
    PutSmall(5, 8);
    PutSmall(6, 8);
    PutSmall(12, 4);
    PutSmall(1, 4);
    hide PutBE;
  }
}
