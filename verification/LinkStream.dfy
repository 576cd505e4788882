/** Reassembly of frames from a byte stream, and what it means for one connection end to end. */
module LinkStream {
  import opened ByteCodec
  import opened LinkCodec

  datatype Status = Open | Closed | Failed

  /** A link's receive side: undecoded bytes and the frames handed on so far. */
  datatype Rx = Rx(status: Status, incoming: Bytes, handled: seq<Frame>)

  /**
   * Limits of the receiver and its handler. `closes` says whether handling the
   * last frame of a history disconnects; it may be any function of the history.
   */
  datatype Config = Config(max: nat, closes: seq<Frame> -> bool)

  /** Takes one frame off the front of the buffer, if one is complete or the length is bad. */
  function Peel(rx: Rx, c: Config): (r: Option<Rx>)
    ensures r.Some? ==> |r.value.incoming| < |rx.incoming|
  {
    if |rx.incoming| < 4 then None
    else
      var n := GetBE(rx.incoming[..4]);
      if n < 10 || n > c.max then Some(Rx(Failed, [], rx.handled))
      else if |rx.incoming| < n + 4 then None
      else match DecodeFrame(rx.incoming[4..4 + n], c.max)
        case None => Some(Rx(Failed, [], rx.handled))
        case Some(f) =>
          var handled := rx.handled + [f];
          if c.closes(handled) then Some(Rx(Closed, [], handled))
          else Some(Rx(Open, rx.incoming[4 + n..], handled))
  }

  /** Peels frames until bytes run out or the link goes down. */
  function Drain(rx: Rx, c: Config): (r: Rx)
    decreases |rx.incoming|
  {
    if !rx.status.Open? then rx
    else match Peel(rx, c)
      case None => rx
      case Some(next) => Drain(next, c)
  }

  function Feed(rx: Rx, data: Bytes, c: Config): Rx {
    if rx.status.Open? then Drain(rx.(incoming := rx.incoming + data), c) else rx
  }

  function FeedAll(rx: Rx, chunks: seq<Bytes>, c: Config): Rx
    decreases |chunks|
  {
    if chunks == [] then rx else FeedAll(Feed(rx, chunks[0], c), chunks[1..], c)
  }

  /** The receive buffer of a live link, updated in place. */
  class FrameReader {
    const config: Config
    var status: Status
    var incoming: Bytes
    var handled: seq<Frame>

    function View(): Rx
      reads this
    {
      Rx(status, incoming, handled)
    }

    constructor (config: Config)
      ensures View() == Rx(Open, [], []) && this.config == config
    {
      this.config := config;
      status, incoming, handled := Open, [], [];
    }

    method Disconnect(reason: Status)
      requires !reason.Open?
      modifies this
      ensures View() == Rx(reason, [], old(handled))
    {
      status, incoming := reason, [];
    }

    method Consume(data: Bytes)
      requires status.Open?
      modifies this
      ensures View() == Feed(old(View()), data, config)
    {
      incoming := incoming + data;
      ghost var goal := Drain(View(), config);
      while |incoming| >= 4
        invariant status.Open? && Drain(View(), config) == goal
        decreases |incoming|
      {
        var length := GetBE(incoming[..4]);
        if length < 10 || length > config.max { Disconnect(Failed); return; }
        if |incoming| < length + 4 { return; }
        var frame := DecodeFrame(incoming[4..4 + length], config.max);
        if frame.None? { Disconnect(Failed); return; }
        incoming := incoming[4 + length..];
        handled := handled + [frame.value];
        if config.closes(handled) { Disconnect(Closed); return; }
      }
    }
  }

  // ---------------------------------------------------------------- independence of chunking

  lemma PeelAppend(rx: Rx, more: Bytes, c: Config)
    requires rx.status.Open? && Peel(rx, c).Some?
    ensures Peel(rx.(incoming := rx.incoming + more), c)
         == Some(var next := Peel(rx, c).value;
                 if next.status.Open? then next.(incoming := next.incoming + more) else next)
  {
    var s := rx.incoming + more;
    var n := GetBE(rx.incoming[..4]);
    assert s[..4] == rx.incoming[..4];
    if 10 <= n <= c.max {
      assert s[4..4 + n] == rx.incoming[4..4 + n];
      assert s[4 + n..] == rx.incoming[4 + n..] + more;
    }
  }

  /** Draining what has arrived and then the rest is draining it all at once. */
  lemma {:induction false} DrainAppend(rx: Rx, more: Bytes, c: Config)
    requires rx.status.Open?
    ensures Drain(rx.(incoming := rx.incoming + more), c) == Feed(Drain(rx, c), more, c)
    decreases |rx.incoming|
  {
    match Peel(rx, c)
    case None =>
    case Some(next) =>
      PeelAppend(rx, more, c);
      if next.status.Open? { DrainAppend(next, more, c); }
  }

  lemma {:induction false} DrainIdempotent(rx: Rx, c: Config)
    ensures Drain(Drain(rx, c), c) == Drain(rx, c)
  {
    if rx.status.Open? {
      DrainAppend(rx, [], c);
      assert rx.incoming + [] == rx.incoming;
      var d := Drain(rx, c);
      assert d.incoming + [] == d.incoming;
    }
  }

  /** Any way of cutting the stream into reads gives the same frames, leftover and outcome. */
  lemma {:induction false} ChunkingIrrelevant(rx: Rx, chunks: seq<Bytes>, c: Config)
    requires Drain(rx, c) == rx
    ensures FeedAll(rx, chunks, c) == Feed(rx, Flatten(chunks), c)
    decreases |chunks|
  {
    hide Peel, Drain;
    if chunks == [] {
      assert rx.incoming + [] == rx.incoming;
    } else {
      var first, rest := chunks[0], Flatten(chunks[1..]);
      var next := Feed(rx, first, c);
      if rx.status.Open? {
        var joined := rx.(incoming := rx.incoming + first);
        DrainIdempotent(joined, c);
        ChunkingIrrelevant(next, chunks[1..], c);
        DrainAppend(joined, rest, c);
        assert rx.incoming + first + rest == rx.incoming + Flatten(chunks);
      } else {
        ChunkingIrrelevant(next, chunks[1..], c);
      }
    }
  }

  /** What is kept between reads is always shorter than one maximal frame with its length, and a downed link keeps nothing. */
  lemma {:induction false} LeftoverBound(rx: Rx, c: Config)
    requires rx.status.Open? && c.max >= 10
    ensures var d := Drain(rx, c);
            if d.status.Open? then |d.incoming| < c.max + 4 else d.incoming == []
    decreases |rx.incoming|
  {
    match Peel(rx, c)
    case None =>
    case Some(next) => if next.status.Open? { LeftoverBound(next, c); }
  }

  // ---------------------------------------------------------------- one connection, end to end

  /** A sender's write queue, the bytes in transit and the receiver. `sent` counts bytes of the front write already handed over. */
  datatype Connection = Connection(
    enqueued: seq<Frame>, writes: seq<Bytes>, sent: nat, channel: Bytes, rx: Rx)

  datatype Step =
    | Enqueue(f: Frame)
    | SendSome(n: nat)
    | WriteDone
    | Deliver(n: nat)

  datatype Sender = Sender(maxFrameBytes: nat, maxQueuedFrames: nat)

  predicate Enabled(s: Connection, step: Step) {
    match step
    case Enqueue(_) => true
    case SendSome(n) => s.writes != [] && s.sent + n <= |s.writes[0]|
    case WriteDone => s.writes != [] && s.sent == |s.writes[0]|
    case Deliver(n) => 1 <= n <= |s.channel|
  }

  /** Whether the sender's queue takes a frame. */
  predicate Admits(s: Connection, f: Frame, tx: Sender) {
    10 + |f.payload| <= tx.maxFrameBytes && |s.writes| < tx.maxQueuedFrames
  }

  function Next(s: Connection, step: Step, tx: Sender, c: Config): Connection
    requires tx.maxFrameBytes < 0x1_0000_0000
    requires Enabled(s, step)
  {
    match step
    case Enqueue(f) =>
      if !Admits(s, f, tx) then s
      else s.(enqueued := s.enqueued + [f], writes := s.writes + [EncodeFrame(f)])
    case SendSome(n) => s.(sent := s.sent + n, channel := s.channel + s.writes[0][s.sent..s.sent + n])
    case WriteDone => s.(writes := s.writes[1..], sent := 0)
    case Deliver(n) => s.(channel := s.channel[n..], rx := Feed(s.rx, s.channel[..n], c))
  }

  const START := Connection([], [], 0, [], Rx(Open, [], []))

  ghost predicate Run(states: seq<Connection>, steps: seq<Step>, tx: Sender, c: Config)
    requires tx.maxFrameBytes < 0x1_0000_0000
  {
    && |states| == |steps| + 1 && states[0] == START
    && forall i :: 0 <= i < |steps| ==> Enabled(states[i], steps[i]) && states[i + 1] == Next(states[i], steps[i], tx, c)
  }

  function Wires(frames: seq<Frame>): Bytes
    requires forall f :: f in frames ==> FrameEncodable(f)
  {
    if frames == [] then [] else EncodeFrame(frames[0]) + Wires(frames[1..])
  }

  lemma {:induction false} WiresAppend(a: seq<Frame>, b: seq<Frame>)
    requires forall f :: f in a + b ==> FrameEncodable(f)
    requires forall f :: f in a ==> FrameEncodable(f)
    requires forall f :: f in b ==> FrameEncodable(f)
    ensures Wires(a + b) == Wires(a) + Wires(b)
  {
    if a == [] {
      assert a + b == b;
    } else {
      assert (a + b)[1..] == a[1..] + b;
      WiresAppend(a[1..], b);
    }
  }

  lemma {:induction false} FlattenAppend(a: seq<Bytes>, b: Bytes)
    ensures Flatten(a + [b]) == Flatten(a) + b
  {
    if a == [] {
      assert a + [b] == [b] && [b][1..] == [];
      assert Flatten([b]) == b;
    } else {
      assert (a + [b])[1..] == a[1..] + [b];
      FlattenAppend(a[1..], b);
    }
  }

  /** Bytes still owed to the channel. */
  function Unsent(s: Connection): Bytes
    requires s.sent <= |Flatten(s.writes)|
  {
    Flatten(s.writes)[s.sent..]
  }

  ghost predicate Inv(s: Connection, c: Config) {
    && (forall f :: f in s.enqueued ==> FrameEncodable(f))
    && s.sent <= |Flatten(s.writes)|
    && (s.writes != [] ==> s.sent <= |s.writes[0]|) && (s.writes == [] ==> s.sent == 0)
    && s.rx.handled <= s.enqueued
    && (s.rx.status.Open? ==> s.rx.incoming + (s.channel + Unsent(s)) == Wires(s.enqueued[|s.rx.handled|..]))
    && Drain(s.rx, c) == s.rx
  }

  /** The first frame on the wire, read back. */
  lemma HeadFrame(f: Frame, more: Bytes, s: Bytes, tail: Bytes)
    requires FrameEncodable(f)
    requires s + tail == EncodeFrame(f) + more && |s| >= 4
    ensures GetBE(s[..4]) == 10 + |f.payload|
    ensures |s| >= 14 + |f.payload| ==>
              s[4..14 + |f.payload|] == FrameBody(f) && s[14 + |f.payload|..] + tail == more
  {
    PowTable();
    var all := s + tail;
    var k := |FrameBody(f)|;
    GetPut(k, 4);
    assert all[..4] == PutBE(k, 4);
    assert all[..4] == s[..4];
    if |s| >= 14 + |f.payload| {
      assert all[4..4 + k] == FrameBody(f);
      assert s[4..4 + k] == all[4..4 + k];
      assert all[4 + k..] == more;
      assert s[4 + k..] + tail == all[4 + k..];
    }
  }

  /** On the encoding of `rest`, one peel hands on the next frame of `rest` or takes the link down. */
  lemma PeelPrefix(rx: Rx, c: Config, rest: seq<Frame>, tail: Bytes)
    requires rx.status.Open? && Peel(rx, c).Some?
    requires forall f :: f in rest ==> FrameEncodable(f)
    requires rx.incoming + tail == Wires(rest)
    ensures rest != []
    ensures var next := Peel(rx, c).value;
            if next.status.Failed? then next.handled == rx.handled
            else next.handled == rx.handled + [rest[0]]
    ensures Peel(rx, c).value.status.Open? ==> Peel(rx, c).value.incoming + tail == Wires(rest[1..])
    ensures WellFormed(rest[0], c.max) && !c.closes(rx.handled + [rest[0]]) ==> Peel(rx, c).value.status.Open?
  {
    assert |rx.incoming + tail| >= 4;
    HeadFrame(rest[0], Wires(rest[1..]), rx.incoming, tail);
    DecodeFrameBody(rest[0], c.max);
  }

  /**
   * Draining a buffer that starts the encoding of `rest` hands on a prefix of
   * `rest`, and while open the buffer starts the encoding of what remains.
   */
  lemma {:induction false} DrainPrefix(rx: Rx, c: Config, rest: seq<Frame>, tail: Bytes) returns (k: nat)
    requires rx.status.Open?
    requires forall f :: f in rest ==> FrameEncodable(f)
    requires rx.incoming + tail == Wires(rest)
    ensures k <= |rest| && Drain(rx, c).handled == rx.handled + rest[..k]
    ensures Drain(rx, c).status.Open? ==> Drain(rx, c).incoming + tail == Wires(rest[k..])
    decreases |rx.incoming|
  {
    hide Peel, DecodeFrame, EncodeFrame;
    match Peel(rx, c)
    case None => k := 0;
    case Some(next) =>
      PeelPrefix(rx, c, rest, tail);
      if next.status.Failed? {
        k := 0;
      } else if next.status.Closed? {
        k := 1;
      } else {
        var more := rest[1..];
        var k' := DrainPrefix(next, c, more, tail);
        k := k' + 1;
        assert more[k'..] == rest[k..];
        assert rest[..k] == [rest[0]] + more[..k'];
      }
  }

  lemma DeliverInv(s: Connection, n: nat, c: Config)
    requires Inv(s, c) && 1 <= n <= |s.channel|
    ensures Inv(s.(channel := s.channel[n..], rx := Feed(s.rx, s.channel[..n], c)), c)
  {
    hide Drain, Wires, Flatten;
    var rx := s.rx;
    if rx.status.Open? {
      var joined := rx.(incoming := rx.incoming + s.channel[..n]);
      var tail := s.channel[n..] + Unsent(s);
      assert joined.incoming + tail == rx.incoming + (s.channel + Unsent(s));
      var rest := s.enqueued[|rx.handled|..];
      assert forall f :: f in rest ==> f in s.enqueued;
      var k := DrainPrefix(joined, c, rest, tail);
      DrainIdempotent(joined, c);
      assert rx.handled + rest[..k] == s.enqueued[..|rx.handled| + k];
      assert rest[k..] == s.enqueued[|rx.handled| + k..];
    }
  }

  lemma WiresExtend(rest: seq<Frame>, f: Frame, a: Bytes, b: Bytes, u: Bytes)
    requires forall g :: g in rest + [f] ==> FrameEncodable(g)
    requires forall g :: g in rest ==> FrameEncodable(g)
    requires FrameEncodable(f) && a + (b + u) == Wires(rest)
    ensures a + (b + (u + EncodeFrame(f))) == Wires(rest + [f])
  {
    hide Wires, EncodeFrame;
    WiresAppend(rest, [f]);
    WiresOne(f);
    Reassociate(a, b, u, EncodeFrame(f));
  }

  lemma WiresOne(f: Frame)
    requires FrameEncodable(f)
    ensures Wires([f]) == EncodeFrame(f)
  {
    hide EncodeFrame;
    assert [f][1..] == [];
  }

  lemma Reassociate(a: Bytes, b: Bytes, u: Bytes, v: Bytes)
    ensures a + (b + (u + v)) == (a + (b + u)) + v
  {}

  lemma EnqueueInv(s: Connection, f: Frame, c: Config)
    requires Inv(s, c) && FrameEncodable(f)
    ensures Inv(s.(enqueued := s.enqueued + [f], writes := s.writes + [EncodeFrame(f)]), c)
  {
    var t := s.(enqueued := s.enqueued + [f], writes := s.writes + [EncodeFrame(f)]);
    FlattenAppend(s.writes, EncodeFrame(f));
    assert Unsent(t) == Unsent(s) + EncodeFrame(f);
    var rest := s.enqueued[|s.rx.handled|..];
    assert t.enqueued[|s.rx.handled|..] == rest + [f];
    if s.rx.status.Open? {
      assert forall g :: g in rest ==> g in s.enqueued;
      WiresExtend(rest, f, s.rx.incoming, s.channel, Unsent(s));
    }
  }

  lemma SendInv(s: Connection, n: nat, c: Config)
    requires Inv(s, c) && s.writes != [] && s.sent + n <= |s.writes[0]|
    ensures Inv(s.(sent := s.sent + n, channel := s.channel + s.writes[0][s.sent..s.sent + n]), c)
  {
    var t := s.(sent := s.sent + n, channel := s.channel + s.writes[0][s.sent..s.sent + n]);
    var all := Flatten(s.writes);
    assert all[s.sent..s.sent + n] == s.writes[0][s.sent..s.sent + n];
    assert all[s.sent..] == all[s.sent..s.sent + n] + all[s.sent + n..];
    assert t.channel + Unsent(t) == s.channel + Unsent(s);
  }

  lemma WriteDoneInv(s: Connection, c: Config)
    requires Inv(s, c) && s.writes != [] && s.sent == |s.writes[0]|
    ensures Inv(s.(writes := s.writes[1..], sent := 0), c)
  {
    assert Flatten(s.writes)[s.sent..] == Flatten(s.writes[1..]);
    assert Flatten(s.writes[1..])[0..] == Flatten(s.writes[1..]);
  }

  lemma StepInv(s: Connection, step: Step, tx: Sender, c: Config)
    requires tx.maxFrameBytes < 0x1_0000_0000
    requires Inv(s, c) && Enabled(s, step)
    ensures Inv(Next(s, step, tx, c), c)
  {
    hide Inv, Feed, EncodeFrame;
    match step
    case Enqueue(f) => if Admits(s, f, tx) { EnqueueInv(s, f, c); }
    case SendSome(n) => SendInv(s, n, c);
    case WriteDone => WriteDoneInv(s, c);
    case Deliver(n) => DeliverInv(s, n, c);
  }

  lemma {:induction false} RunInv(states: seq<Connection>, steps: seq<Step>, tx: Sender, c: Config, k: nat)
    requires tx.maxFrameBytes < 0x1_0000_0000
    requires Run(states, steps, tx, c) && k < |states|
    ensures Inv(states[k], c)
  {
    if k > 0 {
      RunInv(states, steps, tx, c, k - 1);
      StepInv(states[k - 1], steps[k - 1], tx, c);
    }
  }

  /** At every moment of every run, the frames handled are a prefix of the frames enqueued. */
  lemma FifoPrefix(states: seq<Connection>, steps: seq<Step>, tx: Sender, c: Config, k: nat)
    requires tx.maxFrameBytes < 0x1_0000_0000
    requires Run(states, steps, tx, c) && k < |states|
    ensures states[k].rx.handled <= states[k].enqueued
  {
    RunInv(states, steps, tx, c, k);
  }

  /** Nothing the sender queued makes this receiver drop the connection. */
  ghost predicate Agreeable(frames: seq<Frame>, c: Config) {
    && (forall f :: f in frames ==> WellFormed(f, c.max))
    && (forall n: nat {:trigger frames[..n]} :: n <= |frames| ==> !c.closes(frames[..n]))
  }

  lemma {:induction false} DrainStaysOpen(rx: Rx, c: Config, all: seq<Frame>, tail: Bytes)
    requires rx.status.Open? && rx.handled <= all && Agreeable(all, c)
    requires forall f :: f in all[|rx.handled|..] ==> FrameEncodable(f)
    requires rx.incoming + tail == Wires(all[|rx.handled|..])
    ensures Drain(rx, c).status.Open?
    ensures tail == [] ==> Drain(rx, c).handled == all
    decreases |rx.incoming|
  {
    var rest := all[|rx.handled|..];
    match Peel(rx, c)
    case None => if rest != [] && tail == [] { PeelsWhole(rx, c, rest, all); }
    case Some(next) =>
      PeelPrefix(rx, c, rest, tail);
      var handled := rx.handled + [rest[0]];
      assert rest[0] in all && handled == all[..|handled|];
      assert rest[1..] == all[|handled|..];
      DrainStaysOpen(next, c, all, tail);
  }

  /** A whole well-formed frame in the buffer is never left there. */
  lemma PeelsWhole(rx: Rx, c: Config, rest: seq<Frame>, all: seq<Frame>)
    requires rest != [] && rest[0] in all && Agreeable(all, c)
    requires forall f :: f in rest ==> FrameEncodable(f)
    requires rx.incoming + [] == Wires(rest)
    ensures Peel(rx, c).Some?
  {
    assert rx.incoming + [] == EncodeFrame(rest[0]) + Wires(rest[1..]);
    HeadFrame(rest[0], Wires(rest[1..]), rx.incoming, []);
  }

  lemma {:induction false} StaysOpen(states: seq<Connection>, steps: seq<Step>, tx: Sender, c: Config, k: nat)
    requires tx.maxFrameBytes < 0x1_0000_0000
    requires Run(states, steps, tx, c) && k < |states|
    requires Agreeable(states[k].enqueued, c)
    ensures states[k].rx.status.Open?
  {
    hide Drain, Wires, Flatten, EncodeFrame;
    if k > 0 {
      var s, t := states[k - 1], states[k];
      RunInv(states, steps, tx, c, k - 1);
      AgreeablePrefix(s.enqueued, t.enqueued, c);
      StaysOpen(states, steps, tx, c, k - 1);
      if steps[k - 1].Deliver? {
        var joined := s.rx.(incoming := s.rx.incoming + s.channel[..steps[k - 1].n]);
        var tail := t.channel + Unsent(s);
        assert joined.incoming + tail == s.rx.incoming + (s.channel + Unsent(s));
        assert forall f :: f in s.enqueued[|s.rx.handled|..] ==> f in s.enqueued;
        DrainStaysOpen(joined, c, s.enqueued, tail);
      }
    }
  }

  lemma AgreeablePrefix(a: seq<Frame>, b: seq<Frame>, c: Config)
    requires a <= b && Agreeable(b, c)
    ensures Agreeable(a, c)
  {
    forall n: nat | n <= |a| ensures !c.closes(a[..n]) {
      assert a[..n] == b[..n];
    }
  }

  /** When the queue and the channel are empty, every frame has been handled, each once and in order. */
  lemma QuietMeansDelivered(states: seq<Connection>, steps: seq<Step>, tx: Sender, c: Config, k: nat)
    requires tx.maxFrameBytes < 0x1_0000_0000
    requires Run(states, steps, tx, c) && k < |states|
    requires Agreeable(states[k].enqueued, c)
    requires states[k].writes == [] && states[k].channel == []
    ensures states[k].rx.handled == states[k].enqueued
  {
    var s := states[k];
    RunInv(states, steps, tx, c, k);
    StaysOpen(states, steps, tx, c, k);
    assert forall f :: f in s.enqueued[|s.rx.handled|..] ==> f in s.enqueued;
    assert s.channel + Unsent(s) == [];
    assert s.rx.incoming + (s.channel + Unsent(s)) == s.rx.incoming;
    DrainStaysOpen(s.rx, c, s.enqueued, []);
  }
}
