/** A nonblocking socket driven by the loop: pending operations, partial transfers, poller interest. */
module Stream {
  import opened ByteCodec
  import opened Seqs

  datatype Err = BadDescriptor | Canceled | EndOfStream | HostUnreachable | Os(code: int)

  /** A completion queued on the loop. */
  datatype Done = Done(id: nat, error: Option<Err>, bytes: nat)

  datatype ReadOp = ReadOp(id: nat, size: nat)
  datatype WriteOp = WriteOp(id: nat, data: Bytes, offset: nat)

  datatype Interest = Interest(r: bool, w: bool)
  const IDLE := Interest(false, false)

  /** Whether the poller agrees to change or to add a registration. */
  datatype Poller = Poller(mod: Interest -> bool, add: Interest -> bool)

  ghost predicate Accepting(p: Poller) { forall i :: p.mod(i) && p.add(i) }

  /** Histories: operations are numbered as they start; what each write was given, and what the socket took of it. */
  datatype Log = Log(started: nat, posted: seq<Done>, given: map<nat, Bytes>, sent: map<nat, Bytes>)

  /** `registry` is the loop's and the poller's table, for the descriptors of this stream. */
  datatype Stream = Stream(
    fd: Option<nat>, open: bool, gone: bool, read: Option<ReadOp>, write: Option<WriteOp>, connect: Option<nat>,
    interest: Interest, registered: bool, registry: map<nat, Interest>, log: Log)

  /** What one call of `send` or `read` answers. */
  datatype Sent = Took(more: nat) | SendInterrupted | SendWouldBlock | SendFailed(e: Err)   // took `more + 1` bytes, or all that is left
  datatype Got = Bytes(data: Bytes) | ReadInterrupted | ReadWouldBlock | ReadFailed(e: Err) // no bytes at the end of the stream

  datatype Begun = NoSocket(e: Err) | Connected(fd: nat) | InProgress(fd: nat) | Refused(fd: nat, e: Err)

  datatype Step =
    | InitiateRead(size: nat)
    | InitiateWrite(data: Bytes)
    | ClaimConnect
    | BeginConnect(begun: Begun)
    | Unresolved
    | Cancel
    | MarkClosed                 // any thread, ahead of the close it asks for
    | Close
    | Event(r: bool, w: bool, gets: seq<Got>, sends: seq<Sent>, outcome: Option<Err>)
    | LoopStopping
    | Dispose

  // ---------------------------------------------------------------- interest

  function Want(s: Stream): Interest {
    Interest(s.read.Some? || s.connect.Some?, s.write.Some? || s.connect.Some?)
  }

  function UpdateInterest(s: Stream, p: Poller): Stream {
    if s.fd.None? || Want(s) == s.interest then s
    else
      var fd, want := s.fd.value, Want(s);
      if want == IDLE then
        s.(interest := IDLE, registered := false, registry := if s.registered then s.registry - {fd} else s.registry)
      else if s.registered && fd in s.registry && p.mod(want) then
        s.(interest := want, registry := s.registry[fd := want])
      else
        var kept := if s.registered then s.registry - {fd} else s.registry;
        if fd !in kept && p.add(want) then s.(interest := want, registered := true, registry := kept[fd := want])
        else s.(registered := false, registry := kept)
  }

  function Post(s: Stream, done: Done): Stream { s.(log := s.log.(posted := s.log.posted + [done])) }

  function CompleteRead(s: Stream, error: Option<Err>, bytes: nat, p: Poller): Stream
    requires s.read.Some?
  {
    Post(UpdateInterest(s.(read := None), p), Done(s.read.value.id, error, bytes))
  }

  function CompleteWrite(s: Stream, error: Option<Err>, bytes: nat, p: Poller): Stream
    requires s.write.Some?
  {
    Post(UpdateInterest(s.(write := None), p), Done(s.write.value.id, error, bytes))
  }

  function CompleteConnect(s: Stream, error: Option<Err>, p: Poller): Stream
    requires s.connect.Some?
  {
    Post(UpdateInterest(s.(connect := None), p), Done(s.connect.value, error, 0))
  }

  function CancelPending(s: Stream, p: Poller): Stream {
    var s1 := if s.read.Some? then CompleteRead(s, Some(Canceled), 0, p) else s;
    var s2 := if s1.write.Some? then CompleteWrite(s1, Some(Canceled), s1.write.value.offset, p) else s1;
    if s2.connect.Some? then CompleteConnect(s2, Some(Canceled), p) else s2
  }

  function Detach(s: Stream): Stream {
    if s.fd.None? then s
    else s.(fd := None, interest := IDLE, registered := false,
            registry := if s.registered then s.registry - {s.fd.value} else s.registry)
  }

  // ---------------------------------------------------------------- operations

  /** Numbers an operation. */
  function Started(s: Stream): Stream { s.(log := s.log.(started := s.log.started + 1)) }

  predicate Usable(s: Stream) { s.fd.Some? && s.open }

  function RunInitiateRead(s: Stream, size: nat, p: Poller): Stream {
    var id := s.log.started;
    if !Usable(s) then Post(Started(s), Done(id, Some(BadDescriptor), 0))
    else if s.read.Some? then s          // throws
    else UpdateInterest(Started(s).(read := Some(ReadOp(id, size))), p)
  }

  function RunInitiateWrite(s: Stream, data: Bytes, p: Poller): Stream {
    var id := s.log.started;
    var s1 := Started(s).(log := Started(s).log.(given := s.log.given[id := data], sent := s.log.sent[id := []]));
    if !Usable(s) then Post(s1, Done(id, Some(BadDescriptor), 0))
    else if s.write.Some? then s         // throws
    else UpdateInterest(s1.(write := Some(WriteOp(id, data, 0))), p)
  }

  function RunClose(s: Stream, p: Poller): Stream { Detach(CancelPending(s.(open := false), p)) }

  /** A connect claims the stream before its host is resolved; an open socket is closed first. */
  function RunClaimConnect(s: Stream, p: Poller): Stream {
    if s.connect.Some? then s            // throws
    else
      var s1 := if s.fd.Some? then RunClose(s, p) else s;
      Started(s1).(connect := Some(s.log.started))
  }

  function RunBeginConnect(s: Stream, begun: Begun, p: Poller): Stream {
    if s.connect.None? then s
    else match begun
      case NoSocket(e) => CompleteConnect(s.(fd := None), Some(e), p)
      case Connected(fd) => CompleteConnect(s.(fd := Some(fd), open := true), None, p)
      case InProgress(fd) => UpdateInterest(s.(fd := Some(fd)), p)
      case Refused(fd, e) => CompleteConnect(s.(fd := Some(fd)), Some(e), p)
  }

  function RunUnresolved(s: Stream, p: Poller): Stream {
    if s.connect.None? then s else CompleteConnect(s, Some(HostUnreachable), p)
  }

  function FinishConnect(s: Stream, outcome: Option<Err>, p: Poller): Stream
    requires s.connect.Some?
  {
    var s1 := UpdateInterest(s.(connect := None), p);
    var s2 := if outcome.Some? then s1.(fd := None, open := false) else s1.(open := true);
    Post(UpdateInterest(s2, p), Done(s.connect.value, outcome, 0))
  }

  // What a loop of calls ends with, besides the offset it has reached.
  datatype FlushEnd = StillArmed | Finished | Broken(e: Err)

  function Moved(offset: nat, size: nat, more: nat): nat
    requires offset < size
  {
    if more + 1 <= size - offset then offset + more + 1 else size
  }

  /** The send loop: until the data is gone, the socket is full, or an error. */
  function Flush(offset: nat, size: nat, sends: seq<Sent>): (r: (nat, FlushEnd))
    requires offset <= size
    ensures offset <= r.0 <= size && (r.1.Finished? <==> r.0 == size)
    decreases |sends|
  {
    if offset == size then (offset, Finished)
    else if sends == [] then (offset, StillArmed)
    else match sends[0]
      case Took(more) => Flush(Moved(offset, size, more), size, sends[1..])
      case SendInterrupted => Flush(offset, size, sends[1..])
      case SendWouldBlock => (offset, StillArmed)
      case SendFailed(e) => (offset, Broken(e))
  }

  function DoFlush(s: Stream, sends: seq<Sent>, p: Poller): Stream
    requires s.write.Some? && s.write.value.offset <= |s.write.value.data| && s.write.value.id in s.log.sent
  {
    var w := s.write.value;
    var (offset, end) := Flush(w.offset, |w.data|, sends);
    var s1 := s.(write := Some(w.(offset := offset)),
                 log := s.log.(sent := s.log.sent[w.id := s.log.sent[w.id] + w.data[w.offset..offset]]));
    match end
    case StillArmed => s1
    case Finished => CompleteWrite(s1, None, |w.data|, p)
    case Broken(e) => CompleteWrite(s1, Some(e), offset, p)
  }

  /** The read loop: the first answer that is neither an interruption nor a full wait. */
  function Receive(size: nat, gets: seq<Got>): Option<(Option<Err>, nat)>
    decreases |gets|
  {
    if size == 0 then Some((None, 0))
    else if gets == [] then None
    else match gets[0]
      case Bytes(data) => if data == [] then Some((Some(EndOfStream), 0)) else Some((None, if |data| <= size then |data| else size))
      case ReadInterrupted => Receive(size, gets[1..])
      case ReadWouldBlock => None
      case ReadFailed(e) => Some((Some(e), 0))
  }

  function DoRead(s: Stream, gets: seq<Got>, p: Poller): Stream
    requires s.read.Some?
  {
    match Receive(s.read.value.size, gets)
    case None => s
    case Some(r) => CompleteRead(s, r.0, r.1, p)
  }

  /** A pending write remembers what of it the socket took. */
  predicate WriteRight(s: Stream) {
    s.write.Some? ==>
      var w := s.write.value;
      && w.offset <= |w.data| && w.id in s.log.given && s.log.given[w.id] == w.data
      && w.id in s.log.sent && s.log.sent[w.id] == w.data[..w.offset]
  }

  function RunEvent(s: Stream, step: Step, p: Poller): Stream
    requires step.Event? && WriteRight(s)
  {
    if s.fd.None? then s
    else if s.connect.Some? then (if step.r || step.w then FinishConnect(s, step.outcome, p) else s)
    else
      var s1 := if s.read.Some? && step.r then DoRead(s, step.gets, p) else s;
      if s1.fd.Some? && s1.write.Some? && step.w then DoFlush(s1, step.sends, p) else s1
  }

  function Next(s: Stream, step: Step, p: Poller): Stream
    requires !s.gone && WriteRight(s)
  {
    match step
    case InitiateRead(size) => RunInitiateRead(s, size, p)
    case InitiateWrite(data) => RunInitiateWrite(s, data, p)
    case ClaimConnect => RunClaimConnect(s, p)
    case BeginConnect(begun) => RunBeginConnect(s, begun, p)
    case Unresolved => RunUnresolved(s, p)
    case Cancel => CancelPending(s, p)
    case MarkClosed => s.(open := false)
    case Close => RunClose(s, p)
    case Event(_, _, _, _, _) => RunEvent(s, step, p)
    case LoopStopping => CancelPending(s, p)
    case Dispose => Detach(CancelPending(s, p)).(gone := true)
  }

  // ---------------------------------------------------------------- every operation completes once

  function DoneIs(id: nat): Done -> nat { (d: Done) => if d.id == id then 1 else 0 }

  function One(b: bool): nat { if b then 1 else 0 }

  /** In how many places an operation is: pending, or its completion posted. */
  function Places(s: Stream, id: nat): nat {
    One(s.read.Some? && s.read.value.id == id) + One(s.write.Some? && s.write.value.id == id)
    + One(s.connect == Some(id)) + Total(s.log.posted, DoneIs(id))
  }

  ghost predicate OnePlace(s: Stream) {
    forall id: nat :: Places(s, id) == One(id < s.log.started)
  }

  /** Only the registration differs. */
  predicate SameBut(s: Stream, t: Stream) {
    t == s.(interest := t.interest, registered := t.registered, registry := t.registry)
  }

  lemma UpdateSame(s: Stream, p: Poller)
    ensures SameBut(s, UpdateInterest(s, p))
  {}

  lemma PostHeld(s: Stream, done: Done, id: nat)
    ensures Places(Post(s, done), id) == Places(s, id) + One(done.id == id)
  {
    hide Total;
    TotalAdd(s.log.posted, done, DoneIs(id));
  }

  lemma CompleteHeld(s: Stream, error: Option<Err>, bytes: nat, p: Poller, id: nat)
    ensures s.read.Some? ==> Places(CompleteRead(s, error, bytes, p), id) == Places(s, id)
    ensures s.write.Some? ==> Places(CompleteWrite(s, error, bytes, p), id) == Places(s, id)
    ensures s.connect.Some? ==> Places(CompleteConnect(s, error, p), id) == Places(s, id)
  {
    hide Total, UpdateInterest;
    if s.read.Some? {
      UpdateSame(s.(read := None), p);
      PostHeld(UpdateInterest(s.(read := None), p), Done(s.read.value.id, error, bytes), id);
    }
    if s.write.Some? {
      UpdateSame(s.(write := None), p);
      PostHeld(UpdateInterest(s.(write := None), p), Done(s.write.value.id, error, bytes), id);
    }
    if s.connect.Some? {
      UpdateSame(s.(connect := None), p);
      PostHeld(UpdateInterest(s.(connect := None), p), Done(s.connect.value, error, 0), id);
    }
  }

  /** What completing an operation changes. */
  lemma CompleteFrame(s: Stream, error: Option<Err>, bytes: nat, p: Poller)
    ensures s.read.Some? ==> SameBut(s.(read := None, log := s.log.(posted := s.log.posted + [Done(s.read.value.id, error, bytes)])),
                                     CompleteRead(s, error, bytes, p))
    ensures s.write.Some? ==> SameBut(s.(write := None, log := s.log.(posted := s.log.posted + [Done(s.write.value.id, error, bytes)])),
                                      CompleteWrite(s, error, bytes, p))
    ensures s.connect.Some? ==> SameBut(s.(connect := None, log := s.log.(posted := s.log.posted + [Done(s.connect.value, error, 0)])),
                                        CompleteConnect(s, error, p))
  {
    hide UpdateInterest;
    UpdateSame(s.(read := None), p);
    UpdateSame(s.(write := None), p);
    UpdateSame(s.(connect := None), p);
  }

  lemma CancelHeld(s: Stream, p: Poller, id: nat)
    ensures Places(CancelPending(s, p), id) == Places(s, id)
    ensures var t := CancelPending(s, p); t.read.None? && t.write.None? && t.connect.None? && t.log.started == s.log.started
    ensures var t := CancelPending(s, p); t.fd == s.fd && t.open == s.open && t.gone == s.gone
  {
    hide CompleteRead, CompleteWrite, CompleteConnect, Places;
    var s1 := if s.read.Some? then CompleteRead(s, Some(Canceled), 0, p) else s;
    var s2 := if s1.write.Some? then CompleteWrite(s1, Some(Canceled), s1.write.value.offset, p) else s1;
    CompleteHeld(s, Some(Canceled), 0, p, id);
    CompleteFrame(s, Some(Canceled), 0, p);
    if s1.write.Some? {
      CompleteHeld(s1, Some(Canceled), s1.write.value.offset, p, id);
      CompleteFrame(s1, Some(Canceled), s1.write.value.offset, p);
    }
    CompleteHeld(s2, Some(Canceled), 0, p, id);
    CompleteFrame(s2, Some(Canceled), 0, p);
  }

  lemma DetachHeld(s: Stream, id: nat)
    ensures Places(Detach(s), id) == Places(s, id)
  {}

  /** The operation a step starts, if any. */
  function NewId(s: Stream, t: Stream, id: nat): nat { One(t.log.started == s.log.started + 1 && id == s.log.started) }

  lemma InitiateHeld(s: Stream, step: Step, p: Poller, id: nat)
    requires !s.gone && WriteRight(s) && (step.InitiateRead? || step.InitiateWrite?)
    ensures var t := Next(s, step, p);
            Places(t, id) == Places(s, id) + NewId(s, t, id) && (t.log.started == s.log.started || t.log.started == s.log.started + 1)
  {
    hide Total, UpdateInterest;
    var next := s.log.started;
    if step.InitiateRead? {
      if !Usable(s) {
        PostHeld(Started(s), Done(next, Some(BadDescriptor), 0), id);
      } else {
        UpdateSame(Started(s).(read := Some(ReadOp(next, step.size))), p);
      }
    } else {
      var s1 := Started(s).(log := Started(s).log.(given := s.log.given[next := step.data], sent := s.log.sent[next := []]));
      if !Usable(s) {
        PostHeld(s1, Done(next, Some(BadDescriptor), 0), id);
      } else {
        UpdateSame(s1.(write := Some(WriteOp(next, step.data, 0))), p);
      }
    }
  }

  lemma ConnectHeld(s: Stream, step: Step, p: Poller, id: nat)
    requires !s.gone && WriteRight(s) && (step.ClaimConnect? || step.BeginConnect? || step.Unresolved?)
    ensures var t := Next(s, step, p);
            Places(t, id) == Places(s, id) + NewId(s, t, id) && (t.log.started == s.log.started || t.log.started == s.log.started + 1)
  {
    hide Total, UpdateInterest, CompleteConnect, CancelPending, Detach;
    match step
    case ClaimConnect =>
      CancelHeld(s.(open := false), p, id);
      DetachHeld(CancelPending(s.(open := false), p), id);
      DetachFrame(CancelPending(s.(open := false), p));
    case BeginConnect(begun) =>
      if s.connect.Some? { BeginHeld(s, begun, p, id); }
    case Unresolved =>
      CompleteHeld(s, Some(HostUnreachable), 0, p, id);
      CompleteFrame(s, Some(HostUnreachable), 0, p);
  }

  lemma DetachFrame(s: Stream)
    ensures SameBut(s.(fd := None), Detach(s))
  {}

  lemma BeginHeld(s: Stream, begun: Begun, p: Poller, id: nat)
    requires s.connect.Some?
    ensures var t := RunBeginConnect(s, begun, p); Places(t, id) == Places(s, id) && t.log.started == s.log.started
  {
    hide Total, UpdateInterest, CompleteConnect;
    match begun
    case NoSocket(e) =>
      CompleteHeld(s.(fd := None), Some(e), 0, p, id);
      CompleteFrame(s.(fd := None), Some(e), 0, p);
    case Connected(fd) =>
      CompleteHeld(s.(fd := Some(fd), open := true), None, 0, p, id);
      CompleteFrame(s.(fd := Some(fd), open := true), None, 0, p);
    case InProgress(fd) => UpdateSame(s.(fd := Some(fd)), p);
    case Refused(fd, e) =>
      CompleteHeld(s.(fd := Some(fd)), Some(e), 0, p, id);
      CompleteFrame(s.(fd := Some(fd)), Some(e), 0, p);
  }

  lemma FinishHeld(s: Stream, outcome: Option<Err>, p: Poller, id: nat)
    requires s.connect.Some?
    ensures var t := FinishConnect(s, outcome, p); Places(t, id) == Places(s, id) && t.log.started == s.log.started
  {
    hide Total, UpdateInterest;
    var s1 := UpdateInterest(s.(connect := None), p);
    var s2 := if outcome.Some? then s1.(fd := None, open := false) else s1.(open := true);
    UpdateSame(s.(connect := None), p);
    UpdateSame(s2, p);
    PostHeld(UpdateInterest(s2, p), Done(s.connect.value, outcome, 0), id);
  }

  lemma FlushHeld(s: Stream, sends: seq<Sent>, p: Poller, id: nat)
    requires s.write.Some? && s.write.value.offset <= |s.write.value.data| && s.write.value.id in s.log.sent
    ensures var t := DoFlush(s, sends, p); Places(t, id) == Places(s, id) && t.log.started == s.log.started
  {
    hide Total, CompleteWrite, Flush;
    var w := s.write.value;
    var (offset, end) := Flush(w.offset, |w.data|, sends);
    var s1 := s.(write := Some(w.(offset := offset)),
                 log := s.log.(sent := s.log.sent[w.id := s.log.sent[w.id] + w.data[w.offset..offset]]));
    match end
    case StillArmed =>
    case Finished => CompleteHeld(s1, None, |w.data|, p, id); CompleteFrame(s1, None, |w.data|, p);
    case Broken(e) => CompleteHeld(s1, Some(e), offset, p, id); CompleteFrame(s1, Some(e), offset, p);
  }

  lemma ReadHeld(s: Stream, gets: seq<Got>, p: Poller, id: nat)
    requires s.read.Some?
    ensures var t := DoRead(s, gets, p);
            Places(t, id) == Places(s, id) && t.log.started == s.log.started && t.log.given == s.log.given && t.log.sent == s.log.sent
            && t.write == s.write && t.fd == s.fd && t.open == s.open
  {
    hide Places, CompleteRead, Receive;
    match Receive(s.read.value.size, gets)
    case None =>
    case Some(r) => CompleteHeld(s, r.0, r.1, p, id); CompleteFrame(s, r.0, r.1, p);
  }

  lemma EventHeld(s: Stream, step: Step, p: Poller, id: nat)
    requires step.Event? && WriteRight(s)
    ensures var t := RunEvent(s, step, p); Places(t, id) == Places(s, id) && t.log.started == s.log.started
  {
    hide Places, FinishConnect, DoRead, DoFlush;
    if s.fd.Some? && s.connect.Some? {
      FinishHeld(s, step.outcome, p, id);
    } else if s.fd.Some? {
      var s1 := if s.read.Some? && step.r then DoRead(s, step.gets, p) else s;
      if s.read.Some? { ReadHeld(s, step.gets, p, id); }
      if s1.write.Some? { FlushHeld(s1, step.sends, p, id); }
    }
  }

  lemma StepHeld(s: Stream, step: Step, p: Poller, id: nat)
    requires !s.gone && WriteRight(s)
    ensures var t := Next(s, step, p);
            Places(t, id) == Places(s, id) + NewId(s, t, id) && (t.log.started == s.log.started || t.log.started == s.log.started + 1)
  {
    hide Places, RunEvent, RunInitiateRead, RunInitiateWrite, RunClaimConnect, RunBeginConnect, RunUnresolved, CancelPending, Detach;
    match step
    case InitiateRead(_) => InitiateHeld(s, step, p, id);
    case InitiateWrite(_) => InitiateHeld(s, step, p, id);
    case ClaimConnect => ConnectHeld(s, step, p, id);
    case BeginConnect(_) => ConnectHeld(s, step, p, id);
    case Unresolved => ConnectHeld(s, step, p, id);
    case Cancel => CancelHeld(s, p, id);
    case MarkClosed => GoneHeld(s, id);
    case Close =>
      CancelHeld(s.(open := false), p, id);
      ClosedHeld(s, p, id);
    case Event(_, _, _, _, _) => EventHeld(s, step, p, id);
    case LoopStopping => CancelHeld(s, p, id);
    case Dispose =>
      CancelHeld(s, p, id);
      DetachHeld(CancelPending(s, p), id);
      DetachFrame(CancelPending(s, p));
      assert Places(Detach(CancelPending(s, p)).(gone := true), id) == Places(Detach(CancelPending(s, p)), id) by { GoneHeld(Detach(CancelPending(s, p)), id); }
  }

  lemma GoneHeld(s: Stream, id: nat)
    ensures Places(s.(gone := true), id) == Places(s, id) && Places(s.(open := false), id) == Places(s, id)
  {}

  lemma ClosedHeld(s: Stream, p: Poller, id: nat)
    ensures Places(RunClose(s, p), id) == Places(s, id) && RunClose(s, p).log.started == s.log.started
  {
    hide Places, CancelPending, Detach;
    var t := s.(open := false);
    GoneHeld(s, id);
    CancelHeld(t, p, id);
    DetachHeld(CancelPending(t, p), id);
    DetachFrame(CancelPending(t, p));
  }

  // ---------------------------------------------------------------- what the socket was given

  /** A completed write: the socket took exactly the reported prefix, all of it on success. */
  predicate Honest(log: Log, d: Done) {
    d.id in log.given ==>
      && d.id in log.sent && d.bytes <= |log.given[d.id]| && log.sent[d.id] == log.given[d.id][..d.bytes]
      && (d.error.None? ==> d.bytes == |log.given[d.id]|)
  }

  ghost predicate SentRight(s: Stream) {
    && WriteRight(s)
    && (forall i :: 0 <= i < |s.log.posted| ==> Honest(s.log, s.log.posted[i]))
    && (forall id :: id in s.log.given ==> id < s.log.started)
    && (s.read.Some? ==> s.read.value.id !in s.log.given) && (s.connect.Some? ==> s.connect.value !in s.log.given)
  }

  /** Pending transfers have a socket and no connect under way, during which the stream is not open. */
  predicate Shape(s: Stream) {
    && (s.read.Some? || s.write.Some? ==> s.fd.Some? && s.connect.None?)
    && (s.connect.Some? ==> !s.open) && (s.open ==> s.fd.Some? || s.gone)
  }

  ghost predicate Inv(s: Stream) { OnePlace(s) && SentRight(s) && Shape(s) && (s.gone ==> Settled(s)) }

  predicate Settled(s: Stream) { s.read.None? && s.write.None? && s.connect.None? }

  /** Numbers tell operations apart. */
  ghost predicate Distinguished(s: Stream) {
    && (forall i :: 0 <= i < |s.log.posted| ==> s.log.posted[i].id < s.log.started)
    && (s.write.Some? ==> forall i :: 0 <= i < |s.log.posted| ==> s.log.posted[i].id != s.write.value.id)
    && (s.read.Some? ==> s.read.value.id < s.log.started) && (s.connect.Some? ==> s.connect.value < s.log.started)
  }

  lemma TotalAtLeast<T>(s: seq<T>, i: nat, w: T -> nat)
    requires i < |s|
    ensures Total(s, w) >= w(s[i])
  {
    TotalRemove(s, i, w);
  }

  lemma Distinguish(s: Stream)
    requires OnePlace(s)
    ensures Distinguished(s)
  {
    hide Total;
    forall i | 0 <= i < |s.log.posted|
      ensures s.log.posted[i].id < s.log.started
      ensures s.write.Some? ==> s.log.posted[i].id != s.write.value.id
    {
      var id := s.log.posted[i].id;
      TotalAtLeast(s.log.posted, i, DoneIs(id));
      assert Places(s, id) == One(id < s.log.started);
    }
    if s.read.Some? { assert Places(s, s.read.value.id) == One(s.read.value.id < s.log.started); }
    if s.connect.Some? { assert Places(s, s.connect.value) == One(s.connect.value < s.log.started); }
  }

  lemma ReadSent(s: Stream, error: Option<Err>, bytes: nat, p: Poller)
    requires SentRight(s) && Shape(s) && s.read.Some?
    ensures SentRight(CompleteRead(s, error, bytes, p)) && Shape(CompleteRead(s, error, bytes, p))
    ensures CompleteRead(s, error, bytes, p).gone == s.gone
  {
    CompleteFrame(s, error, bytes, p);
    hide CompleteRead;
  }

  lemma WriteSent(s: Stream, error: Option<Err>, bytes: nat, p: Poller)
    requires SentRight(s) && Shape(s) && s.write.Some? && bytes == s.write.value.offset
    requires error.None? ==> bytes == |s.write.value.data|
    ensures SentRight(CompleteWrite(s, error, bytes, p)) && Shape(CompleteWrite(s, error, bytes, p))
    ensures CompleteWrite(s, error, bytes, p).gone == s.gone
  {
    CompleteFrame(s, error, bytes, p);
    hide CompleteWrite;
  }

  lemma ConnectSent(s: Stream, error: Option<Err>, p: Poller)
    requires SentRight(s) && s.connect.Some? && s.read.None? && s.write.None? && (s.open ==> s.fd.Some?)
    ensures SentRight(CompleteConnect(s, error, p)) && Shape(CompleteConnect(s, error, p))
    ensures CompleteConnect(s, error, p).gone == s.gone
  {
    CompleteFrame(s, error, 0, p);
    hide CompleteConnect;
  }

  lemma CompleteSent(s: Stream, error: Option<Err>, bytes: nat, p: Poller)
    requires SentRight(s)
    ensures s.read.Some? ==> SentRight(CompleteRead(s, error, bytes, p))
    ensures s.write.Some? && error.Some? && bytes == s.write.value.offset ==> SentRight(CompleteWrite(s, error, bytes, p))
    ensures s.connect.Some? ==> SentRight(CompleteConnect(s, error, p))
  {
    CompleteFrame(s, error, bytes, p);
    hide CompleteRead, CompleteWrite, CompleteConnect;
  }

  lemma CancelSent(s: Stream, p: Poller)
    requires SentRight(s)
    ensures SentRight(CancelPending(s, p)) && Settled(CancelPending(s, p))
    ensures CancelPending(s, p).open == s.open && CancelPending(s, p).fd == s.fd && CancelPending(s, p).gone == s.gone
  {
    CancelHeld(s, p, 0);
    hide CompleteRead, CompleteWrite, CompleteConnect, SentRight, Places;
    var s1 := if s.read.Some? then CompleteRead(s, Some(Canceled), 0, p) else s;
    CompleteSent(s, Some(Canceled), 0, p);
    var s2 := if s1.write.Some? then CompleteWrite(s1, Some(Canceled), s1.write.value.offset, p) else s1;
    if s1.write.Some? { CompleteSent(s1, Some(Canceled), s1.write.value.offset, p); }
    CompleteSent(s2, Some(Canceled), 0, p);
  }

  lemma CloseSent(s: Stream, p: Poller)
    requires SentRight(s)
    ensures var t := RunClose(s, p); SentRight(t) && Settled(t) && t.fd.None? && !t.open && t.gone == s.gone
  {
    hide CancelPending, Detach;
    CancelSent(s.(open := false), p);
    DetachFrame(CancelPending(s.(open := false), p));
  }

  lemma InitiateSent(s: Stream, step: Step, p: Poller)
    requires Inv(s) && !s.gone && (step.InitiateRead? || step.InitiateWrite?)
    ensures SentRight(Next(s, step, p)) && Shape(Next(s, step, p)) && Next(s, step, p).gone == s.gone
  {
    Distinguish(s);
    hide OnePlace, UpdateInterest;
    var next := s.log.started;
    if step.InitiateRead? {
      UpdateSame(Started(s).(read := Some(ReadOp(next, step.size))), p);
    } else {
      var s1 := Started(s).(log := Started(s).log.(given := s.log.given[next := step.data], sent := s.log.sent[next := []]));
      UpdateSame(s1.(write := Some(WriteOp(next, step.data, 0))), p);
    }
  }

  lemma ClaimSent(s: Stream, p: Poller)
    requires Inv(s) && !s.gone
    ensures SentRight(RunClaimConnect(s, p)) && Shape(RunClaimConnect(s, p)) && RunClaimConnect(s, p).gone == s.gone
  {
    Distinguish(s);
    CloseSent(s, p);
    StartedClose(s, p);
    hide OnePlace, RunClose;
  }

  lemma StartedClose(s: Stream, p: Poller)
    ensures RunClose(s, p).log.started == s.log.started && RunClose(s, p).log.given == s.log.given
  {
    hide UpdateInterest;
    var t := s.(open := false);
    var s1 := if t.read.Some? then CompleteRead(t, Some(Canceled), 0, p) else t;
    var s2 := if s1.write.Some? then CompleteWrite(s1, Some(Canceled), s1.write.value.offset, p) else s1;
    CompleteFrame(t, Some(Canceled), 0, p);
    if s1.write.Some? { CompleteFrame(s1, Some(Canceled), s1.write.value.offset, p); }
    CompleteFrame(s2, Some(Canceled), 0, p);
    hide CompleteRead, CompleteWrite, CompleteConnect;
  }

  lemma BeginSent(s: Stream, begun: Begun, p: Poller)
    requires SentRight(s) && Shape(s) && !s.gone
    ensures SentRight(RunBeginConnect(s, begun, p)) && Shape(RunBeginConnect(s, begun, p)) && RunBeginConnect(s, begun, p).gone == s.gone
  {
    hide CompleteConnect, UpdateInterest;
    if s.connect.Some? {
      match begun
      case NoSocket(e) => ConnectSent(s.(fd := None), Some(e), p);
      case Connected(fd) => ConnectSent(s.(fd := Some(fd), open := true), None, p);
      case InProgress(fd) => UpdateSame(s.(fd := Some(fd)), p);
      case Refused(fd, e) => ConnectSent(s.(fd := Some(fd)), Some(e), p);
    }
  }

  lemma FinishSent(s: Stream, outcome: Option<Err>, p: Poller)
    requires SentRight(s) && Shape(s) && s.connect.Some? && s.fd.Some?
    ensures SentRight(FinishConnect(s, outcome, p)) && Shape(FinishConnect(s, outcome, p)) && FinishConnect(s, outcome, p).gone == s.gone
  {
    hide UpdateInterest;
    var s1 := UpdateInterest(s.(connect := None), p);
    var s2 := if outcome.Some? then s1.(fd := None, open := false) else s1.(open := true);
    UpdateSame(s.(connect := None), p);
    UpdateSame(s2, p);
  }

  lemma FlushSent(s: Stream, sends: seq<Sent>, p: Poller)
    requires SentRight(s) && Shape(s) && Distinguished(s) && s.write.Some?
    ensures SentRight(DoFlush(s, sends, p)) && Shape(DoFlush(s, sends, p)) && DoFlush(s, sends, p).gone == s.gone
  {
    hide CompleteWrite, Flush;
    var w := s.write.value;
    var (offset, end) := Flush(w.offset, |w.data|, sends);
    var s1 := s.(write := Some(w.(offset := offset)),
                 log := s.log.(sent := s.log.sent[w.id := s.log.sent[w.id] + w.data[w.offset..offset]]));
    assert w.data[..w.offset] + w.data[w.offset..offset] == w.data[..offset];
    assert SentRight(s1);
    match end
    case StillArmed =>
    case Finished => WriteSent(s1, None, |w.data|, p);
    case Broken(e) => WriteSent(s1, Some(e), offset, p);
  }

  lemma EventSent(s: Stream, step: Step, p: Poller)
    requires Inv(s) && step.Event?
    ensures SentRight(RunEvent(s, step, p)) && Shape(RunEvent(s, step, p)) && RunEvent(s, step, p).gone == s.gone
  {
    Distinguish(s);
    hide OnePlace, FinishConnect, DoFlush, SentRight;
    if s.fd.Some? && s.connect.Some? {
      FinishSent(s, step.outcome, p);
    } else if s.fd.Some? {
      var s1 := if s.read.Some? && step.r then DoRead(s, step.gets, p) else s;
      DoReadSent(s, step.gets, p);
      hide DoRead;
      if s1.write.Some? { FlushSent(s1, step.sends, p); }
    }
  }

  lemma DoReadSent(s: Stream, gets: seq<Got>, p: Poller)
    requires SentRight(s) && Shape(s) && Distinguished(s)
    ensures s.read.Some? ==> var t := DoRead(s, gets, p); SentRight(t) && Shape(t) && Distinguished(t) && t.gone == s.gone
  {
    hide CompleteRead, Receive;
    if s.read.Some? && Receive(s.read.value.size, gets).Some? {
      var r := Receive(s.read.value.size, gets).value;
      ReadSent(s, r.0, r.1, p);
      CompleteFrame(s, r.0, r.1, p);
      assert s.write.Some? ==> s.read.value.id != s.write.value.id;
    }
  }

  lemma StepInv(s: Stream, step: Step, p: Poller)
    requires Inv(s) && !s.gone
    ensures Inv(Next(s, step, p))
  {
    var t := Next(s, step, p);
    forall id: nat ensures Places(t, id) == One(id < t.log.started) {
      assert Places(s, id) == One(id < s.log.started);
      StepHeld(s, step, p, id);
    }
    StepSent(s, step, p);
    hide SentRight;
  }

  lemma StepSent(s: Stream, step: Step, p: Poller)
    requires Inv(s) && !s.gone
    ensures var t := Next(s, step, p); SentRight(t) && Shape(t) && (t.gone ==> Settled(t))
  {
    hide OnePlace, SentRight, RunEvent, RunInitiateRead, RunInitiateWrite, RunClaimConnect, RunBeginConnect, CompleteConnect, CancelPending, Detach;
    match step
    case InitiateRead(_) => InitiateSent(s, step, p);
    case InitiateWrite(_) => InitiateSent(s, step, p);
    case ClaimConnect => ClaimSent(s, p);
    case BeginConnect(begun) => BeginSent(s, begun, p);
    case Unresolved =>
      if s.connect.Some? { ConnectSent(s, Some(HostUnreachable), p); }

    case Cancel => CancelSent(s, p);
    case MarkClosed => GoneSent(s, s.(open := false));
    case Close =>
      assert RunClose(s, p) == Detach(CancelPending(s.(open := false), p));
      CloseSent(s, p);
    case Event(_, _, _, _, _) => EventSent(s, step, p);
    case LoopStopping => CancelSent(s, p);
    case Dispose =>
      CancelSent(s, p);
      DetachFrame(CancelPending(s, p));
      GoneSent(CancelPending(s, p), Detach(CancelPending(s, p)).(gone := true));
  }

  lemma GoneSent(s: Stream, t: Stream)
    requires SentRight(s) && t.log == s.log && t.read == s.read && t.write == s.write && t.connect == s.connect
    ensures SentRight(t)
  {}

  // ---------------------------------------------------------------- over all runs

  /** One step, with the poller's answers during it. */
  datatype Turn = Turn(step: Step, poller: Poller)

  ghost predicate IsTurn(s: Stream, turn: Turn, t: Stream) {
    !s.gone && (WriteRight(s) ==> t == Next(s, turn.step, turn.poller))
  }

  ghost predicate IsRun(states: seq<Stream>, turns: seq<Turn>) {
    |states| == |turns| + 1 && forall i :: 0 <= i < |turns| ==> IsTurn(states[i], turns[i], states[i + 1])
  }

  const EMPTY_LOG := Log(0, [], map[], map[])

  /** A stream around a connected socket, or around none yet. */
  function Fresh(fd: Option<nat>): Stream {
    Stream(fd, fd.Some?, false, None, None, None, IDLE, false, map[], EMPTY_LOG)
  }

  lemma {:induction false} RunInv(states: seq<Stream>, turns: seq<Turn>, fd: Option<nat>, k: nat)
    requires IsRun(states, turns) && states[0] == Fresh(fd) && k < |states|
    ensures Inv(states[k])
  {
    if k > 0 {
      hide Next, SentRight, OnePlace;
      RunInv(states, turns, fd, k - 1);
      assert IsTurn(states[k - 1], turns[k - 1], states[k]);
      assert WriteRight(states[k - 1]) by { InvWrite(states[k - 1]); }
      StepInv(states[k - 1], turns[k - 1].step, turns[k - 1].poller);
    }
  }

  lemma InvWrite(s: Stream)
    requires Inv(s)
    ensures WriteRight(s)
  {}

  /**
   * Over every run, whatever the sockets, the poller and the callers do: each
   * operation started is pending or has posted its completion, never both and
   * never two; a completed write handed the socket exactly the reported prefix
   * of its data, in order, and all of it on success; and once nothing is
   * pending every operation has completed.
   */
  lemma CompletesOnce(states: seq<Stream>, turns: seq<Turn>, fd: Option<nat>, k: nat, id: nat)
    requires IsRun(states, turns) && states[0] == Fresh(fd) && k < |states|
    ensures var s := states[k];
            && Places(s, id) == One(id < s.log.started)
            && (Settled(s) ==> Total(s.log.posted, DoneIs(id)) == One(id < s.log.started))
            && (forall i :: 0 <= i < |s.log.posted| ==> Honest(s.log, s.log.posted[i]))
            && (s.write.Some? ==> WriteRight(s))
  {
    RunInv(states, turns, fd, k);
    hide Total;
  }

  // ---------------------------------------------------------------- what each completion reports

  /** The read calls up to the `m`th were interrupted, and that one was not. */
  predicate Decisive(gets: seq<Got>, m: nat) {
    m < |gets| && !gets[m].ReadInterrupted? && forall i :: 0 <= i < m ==> gets[i].ReadInterrupted?
  }

  /** What a read into `size` bytes of room is to report, from the first call that was not interrupted. */
  ghost predicate ReadReports(size: nat, gets: seq<Got>, error: Option<Err>, bytes: nat) {
    if size == 0 then error == None && bytes == 0
    else exists m: nat :: Decisive(gets, m) && ReportsAs(size, gets[m], error, bytes)
  }

  /** Bytes as far as there is room, the end of the stream, or the call's own error. */
  predicate ReportsAs(size: nat, got: Got, error: Option<Err>, bytes: nat) {
    match got
    case Bytes(data) =>
      if data == [] then error == Some(EndOfStream) && bytes == 0
      else error == None && bytes == if |data| <= size then |data| else size
    case ReadFailed(e) => error == Some(e) && bytes == 0
    case _ => false
  }

  lemma {:induction false} ReceiveExact(size: nat, gets: seq<Got>, error: Option<Err>, bytes: nat)
    ensures Receive(size, gets) == Some((error, bytes)) <==> ReadReports(size, gets, error, bytes)
    decreases |gets|
  {
    if size > 0 && gets != [] {
      var rest := gets[1..];
      if gets[0].ReadInterrupted? {
        ReceiveExact(size, rest, error, bytes);
        forall m: nat | Decisive(rest, m) ensures Decisive(gets, m + 1) {}
        forall m: nat | Decisive(gets, m) ensures m > 0 && Decisive(rest, m - 1) {}
        if ReadReports(size, rest, error, bytes) {
          var m: nat :| Decisive(rest, m) && ReportsAs(size, rest[m], error, bytes);
          assert Decisive(gets, m + 1) && gets[m + 1] == rest[m];
        }
        if ReadReports(size, gets, error, bytes) {
          var m: nat :| Decisive(gets, m) && ReportsAs(size, gets[m], error, bytes);
          assert Decisive(rest, m - 1) && rest[m - 1] == gets[m];
        }
      } else {
        assert Decisive(gets, 0);
        forall m: nat | Decisive(gets, m) ensures m == 0 {}
      }
    }
  }

  /** The bytes a call of `send` took. */
  function Amount(): Sent -> nat { (x: Sent) => match x case Took(more) => more + 1 case _ => 0 }

  /** The calls before the `n`th only took bytes or were interrupted. */
  predicate Flowing(sends: seq<Sent>, n: nat) {
    n <= |sends| && forall i :: 0 <= i < n ==> sends[i].Took? || sends[i].SendInterrupted?
  }

  /** What a write is to report: all of it once the calls have taken enough, or the first failing call's error with what was taken before. */
  ghost predicate WriteReports(offset: nat, size: nat, sends: seq<Sent>, error: Option<Err>, bytes: nat) {
    exists n: nat :: Flowing(sends, n) && WrittenBy(offset, size, sends, n, error, bytes)
  }

  predicate WrittenBy(offset: nat, size: nat, sends: seq<Sent>, n: nat, error: Option<Err>, bytes: nat)
    requires Flowing(sends, n)
  {
    var taken := offset + Total(sends[..n], Amount());
    match error
    case None => size <= taken && bytes == size
    case Some(e) => taken < size && bytes == taken && n < |sends| && sends[n] == SendFailed(e)
  }

  /** One more call in front. */
  lemma FlowsOn(offset: nat, size: nat, sends: seq<Sent>, error: Option<Err>, bytes: nat)
    requires sends != [] && (sends[0].Took? || sends[0].SendInterrupted?) && offset < size
    ensures WriteReports(offset, size, sends, error, bytes) <==>
              WriteReports(offset + Amount()(sends[0]), size, sends[1..], error, bytes)
  {
    var rest := sends[1..];
    forall n: nat | Flowing(rest, n) ensures Flowing(sends, n + 1) && Total(sends[..n + 1], Amount()) == Amount()(sends[0]) + Total(rest[..n], Amount()) {
      assert sends[..n + 1][1..] == rest[..n];
    }
    if WriteReports(offset + Amount()(sends[0]), size, rest, error, bytes) {
      var n: nat :| Flowing(rest, n) && WrittenBy(offset + Amount()(sends[0]), size, rest, n, error, bytes);
      assert Flowing(sends, n + 1) && WrittenBy(offset, size, sends, n + 1, error, bytes);
    }
    if WriteReports(offset, size, sends, error, bytes) {
      var n: nat :| Flowing(sends, n) && WrittenBy(offset, size, sends, n, error, bytes);
      assert n > 0 by { assert sends[..0] == []; }
      assert Flowing(rest, n - 1) && WrittenBy(offset + Amount()(sends[0]), size, rest, n - 1, error, bytes);
    }
  }

  /** Beyond the end nothing more happens. */
  lemma FullReports(offset: nat, size: nat, sends: seq<Sent>, error: Option<Err>, bytes: nat)
    requires size <= offset
    ensures WriteReports(offset, size, sends, error, bytes) <==> error == None && bytes == size
  {
    assert Flowing(sends, 0) && sends[..0] == [];
    if error == None && bytes == size { assert WrittenBy(offset, size, sends, 0, error, bytes); }
  }

  lemma {:induction false} FlushExact(offset: nat, size: nat, sends: seq<Sent>, error: Option<Err>, bytes: nat)
    requires offset <= size
    ensures WriteReports(offset, size, sends, error, bytes) <==>
              var (reached, end) := Flush(offset, size, sends);
              bytes == reached && match error case None => end.Finished? case Some(e) => end == Broken(e)
    decreases |sends|
  {
    if offset == size {
      FullReports(offset, size, sends, error, bytes);
    } else if sends != [] && (sends[0].Took? || sends[0].SendInterrupted?) {
      FlowsOn(offset, size, sends, error, bytes);
      var next := if sends[0].Took? then Moved(offset, size, sends[0].more) else offset;
      FlushExact(next, size, sends[1..], error, bytes);
      if next == size {
        FullReports(size, size, sends[1..], error, bytes);
        FullReports(offset + Amount()(sends[0]), size, sends[1..], error, bytes);
      }
    } else {
      StuckReports(offset, size, sends, error, bytes);
    }
  }

  /** A first call that neither takes nor is interrupted ends the loop. */
  lemma StuckReports(offset: nat, size: nat, sends: seq<Sent>, error: Option<Err>, bytes: nat)
    requires offset < size && (sends == [] || !(sends[0].Took? || sends[0].SendInterrupted?))
    ensures WriteReports(offset, size, sends, error, bytes) <==>
              error.Some? && bytes == offset && sends != [] && sends[0] == SendFailed(error.value)
  {
    forall n: nat | Flowing(sends, n) ensures n == 0 {}
    assert Flowing(sends, 0) && sends[..0] == [];
    if error.Some? && bytes == offset && sends != [] && sends[0] == SendFailed(error.value) {
      assert WrittenBy(offset, size, sends, 0, error, bytes);
    }
  }

  /** A cancellation of operation `id`: what it had moved, and that it was cancelled. */
  predicate Cancels(s: Stream, id: nat, error: Option<Err>, bytes: nat) {
    && error == Some(Canceled)
    && (|| (s.read.Some? && s.read.value.id == id && bytes == 0)
        || (s.write.Some? && s.write.value.id == id && bytes == s.write.value.offset)
        || (s.connect == Some(id) && bytes == 0))
  }

  /** In state `s` the step completes operation `id` with this report. */
  ghost predicate Reports(s: Stream, step: Step, id: nat, error: Option<Err>, bytes: nat) {
    match step
    case InitiateRead(_) => !(s.fd.Some? && s.open) && id == s.log.started && error == Some(BadDescriptor) && bytes == 0
    case InitiateWrite(_) => !(s.fd.Some? && s.open) && id == s.log.started && error == Some(BadDescriptor) && bytes == 0
    case ClaimConnect => s.connect.None? && s.fd.Some? && Cancels(s, id, error, bytes)
    case BeginConnect(begun) =>
      && s.connect == Some(id) && bytes == 0
      && (match begun
          case NoSocket(e) => error == Some(e)
          case Connected(_) => error == None
          case InProgress(_) => false
          case Refused(_, e) => error == Some(e))
    case Unresolved => s.connect == Some(id) && error == Some(HostUnreachable) && bytes == 0
    case MarkClosed => false
    case Event(r, w, gets, sends, outcome) =>
      && s.fd.Some?
      && (if s.connect.Some? then (r || w) && s.connect == Some(id) && error == outcome && bytes == 0
          else || (r && s.read.Some? && s.read.value.id == id && ReadReports(s.read.value.size, gets, error, bytes))
               || (w && s.write.Some? && s.write.value.id == id
                   && WriteReports(s.write.value.offset, |s.write.value.data|, sends, error, bytes)))
    case _ => Cancels(s, id, error, bytes)       // cancel, close, loop stopping, dispose
  }

  lemma CancelReports(s: Stream, p: Poller, id: nat, error: Option<Err>, bytes: nat)
    ensures Done(id, error, bytes) in CancelPending(s, p).log.posted <==> Done(id, error, bytes) in s.log.posted || Cancels(s, id, error, bytes)
  {
    hide CompleteRead, CompleteWrite, CompleteConnect;
    var s1 := if s.read.Some? then CompleteRead(s, Some(Canceled), 0, p) else s;
    CompleteFrame(s, Some(Canceled), 0, p);
    var s2 := if s1.write.Some? then CompleteWrite(s1, Some(Canceled), s1.write.value.offset, p) else s1;
    if s1.write.Some? { CompleteFrame(s1, Some(Canceled), s1.write.value.offset, p); }
    CompleteFrame(s2, Some(Canceled), 0, p);
  }

  lemma CloseReports(s: Stream, p: Poller, id: nat, error: Option<Err>, bytes: nat)
    ensures Done(id, error, bytes) in RunClose(s, p).log.posted <==> Done(id, error, bytes) in s.log.posted || Cancels(s, id, error, bytes)
  {
    hide CancelPending, Detach;
    CancelReports(s.(open := false), p, id, error, bytes);
    DetachFrame(CancelPending(s.(open := false), p));
  }

  lemma EventReports(s: Stream, step: Step, p: Poller, id: nat, error: Option<Err>, bytes: nat)
    requires step.Event? && WriteRight(s)
    ensures Done(id, error, bytes) in RunEvent(s, step, p).log.posted <==>
              Done(id, error, bytes) in s.log.posted || Reports(s, step, id, error, bytes)
  {
    hide FinishConnect, DoRead, DoFlush, ReadReports, WriteReports;
    if s.fd.Some? && s.connect.Some? {
      FinishReports(s, step.outcome, p);
    } else if s.fd.Some? {
      var s1 := if s.read.Some? && step.r then DoRead(s, step.gets, p) else s;
      if s.read.Some? {
        ReadHeld(s, step.gets, p, 0);
        DoReadReports(s, step.gets, p, id, error, bytes);
      }
      if s1.write.Some? { DoFlushReports(s1, step.sends, p, id, error, bytes); }
    }
  }

  lemma FinishReports(s: Stream, outcome: Option<Err>, p: Poller)
    requires s.connect.Some?
    ensures FinishConnect(s, outcome, p).log.posted == s.log.posted + [Done(s.connect.value, outcome, 0)]
  {
    hide UpdateInterest;
    var s1 := UpdateInterest(s.(connect := None), p);
    var s2 := if outcome.Some? then s1.(fd := None, open := false) else s1.(open := true);
    UpdateSame(s.(connect := None), p);
    UpdateSame(s2, p);
  }

  lemma DoReadReports(s: Stream, gets: seq<Got>, p: Poller, id: nat, error: Option<Err>, bytes: nat)
    requires s.read.Some?
    ensures Done(id, error, bytes) in DoRead(s, gets, p).log.posted <==>
              Done(id, error, bytes) in s.log.posted || (s.read.value.id == id && ReadReports(s.read.value.size, gets, error, bytes))
  {
    hide CompleteRead, Receive, ReadReports;
    ReceiveExact(s.read.value.size, gets, error, bytes);
    match Receive(s.read.value.size, gets)
    case None =>
    case Some(r) => CompleteFrame(s, r.0, r.1, p);
  }

  lemma DoFlushReports(s: Stream, sends: seq<Sent>, p: Poller, id: nat, error: Option<Err>, bytes: nat)
    requires s.write.Some? && s.write.value.offset <= |s.write.value.data| && s.write.value.id in s.log.sent
    ensures Done(id, error, bytes) in DoFlush(s, sends, p).log.posted <==>
              || Done(id, error, bytes) in s.log.posted
              || (s.write.value.id == id && WriteReports(s.write.value.offset, |s.write.value.data|, sends, error, bytes))
  {
    hide CompleteWrite, Flush, WriteReports;
    var w := s.write.value;
    FlushExact(w.offset, |w.data|, sends, error, bytes);
    var (offset, end) := Flush(w.offset, |w.data|, sends);
    var s1 := s.(write := Some(w.(offset := offset)),
                 log := s.log.(sent := s.log.sent[w.id := s.log.sent[w.id] + w.data[w.offset..offset]]));
    match end
    case StillArmed =>
    case Finished => CompleteFrame(s1, None, |w.data|, p);
    case Broken(e) => CompleteFrame(s1, Some(e), offset, p);
  }

  lemma BeginReports(s: Stream, begun: Begun, p: Poller, id: nat, error: Option<Err>, bytes: nat)
    ensures Done(id, error, bytes) in RunBeginConnect(s, begun, p).log.posted <==>
              Done(id, error, bytes) in s.log.posted || Reports(s, BeginConnect(begun), id, error, bytes)
  {
    hide CompleteConnect, UpdateInterest;
    if s.connect.Some? {
      match begun
      case NoSocket(e) => CompleteFrame(s.(fd := None), Some(e), 0, p);
      case Connected(fd) => CompleteFrame(s.(fd := Some(fd), open := true), None, 0, p);
      case InProgress(fd) => UpdateSame(s.(fd := Some(fd)), p);
      case Refused(fd, e) => CompleteFrame(s.(fd := Some(fd)), Some(e), 0, p);
    }
  }

  lemma InitiateReports(s: Stream, step: Step, p: Poller, id: nat, error: Option<Err>, bytes: nat)
    requires !s.gone && WriteRight(s) && (step.InitiateRead? || step.InitiateWrite?)
    ensures Done(id, error, bytes) in Next(s, step, p).log.posted <==>
              Done(id, error, bytes) in s.log.posted || Reports(s, step, id, error, bytes)
  {
    hide UpdateInterest;
    var next := s.log.started;
    if step.InitiateRead? {
      UpdateSame(Started(s).(read := Some(ReadOp(next, step.size))), p);
    } else {
      var s1 := Started(s).(log := Started(s).log.(given := s.log.given[next := step.data], sent := s.log.sent[next := []]));
      UpdateSame(s1.(write := Some(WriteOp(next, step.data, 0))), p);
    }
  }

  lemma StepReports(s: Stream, step: Step, p: Poller, id: nat, error: Option<Err>, bytes: nat)
    requires !s.gone && WriteRight(s)
    ensures Done(id, error, bytes) in Next(s, step, p).log.posted <==>
              Done(id, error, bytes) in s.log.posted || Reports(s, step, id, error, bytes)
  {
    hide RunEvent, RunInitiateRead, RunInitiateWrite, RunBeginConnect, CompleteConnect, CancelPending, RunClose, Detach, Cancels, ReadReports, WriteReports;
    match step
    case InitiateRead(_) => InitiateReports(s, step, p, id, error, bytes);
    case InitiateWrite(_) => InitiateReports(s, step, p, id, error, bytes);
    case ClaimConnect => CloseReports(s, p, id, error, bytes);
    case BeginConnect(begun) => BeginReports(s, begun, p, id, error, bytes);
    case Unresolved => CompleteFrame(s, Some(HostUnreachable), 0, p);
    case MarkClosed =>
    case Event(_, _, _, _, _) => EventReports(s, step, p, id, error, bytes);
    case Close => CloseReports(s, p, id, error, bytes);
    case Dispose =>
      CancelReports(s, p, id, error, bytes);
      DetachFrame(CancelPending(s, p));
    case _ => CancelReports(s, p, id, error, bytes);
  }

  /**
   * Over every run an operation is completed with a report if and only if some
   * step gave that report: a read the bytes, end or error of its first call that
   * was not interrupted; a write its full size once enough was taken, or the
   * first failing call's error and what was taken before; a connect the outcome
   * of its socket; any of them its cancellation with what had been moved.
   */
  lemma {:induction false} ReportsExactly(states: seq<Stream>, turns: seq<Turn>, fd: Option<nat>, k: nat, id: nat, error: Option<Err>, bytes: nat)
    requires IsRun(states, turns) && states[0] == Fresh(fd) && k < |states|
    ensures Done(id, error, bytes) in states[k].log.posted <==>
              exists j :: 0 <= j < k && Reports(states[j], turns[j].step, id, error, bytes)
  {
    hide Next, Inv, Reports;
    if k > 0 {
      ReportsExactly(states, turns, fd, k - 1, id, error, bytes);
      RunInv(states, turns, fd, k - 1);
      InvWrite(states[k - 1]);
      assert IsTurn(states[k - 1], turns[k - 1], states[k]);
      StepReports(states[k - 1], turns[k - 1].step, turns[k - 1].poller, id, error, bytes);
    }
  }

  // ---------------------------------------------------------------- open or closed

  /** The step is the success of a pending connect. */
  predicate Opens(s: Stream, step: Step) {
    && s.connect.Some?
    && (|| (step.BeginConnect? && step.begun.Connected?)
        || (step.Event? && s.fd.Some? && (step.r || step.w) && step.outcome == None))
  }

  /** The step is a close, the failure of a connect under way, or a new connect over an open socket. */
  predicate Closes(s: Stream, step: Step) {
    || step.Close? || step.MarkClosed?
    || (step.ClaimConnect? && s.connect.None? && s.fd.Some?)
    || (step.Event? && s.connect.Some? && s.fd.Some? && (step.r || step.w) && step.outcome.Some?)
  }

  lemma EventOpens(s: Stream, step: Step, p: Poller)
    requires step.Event? && WriteRight(s)
    ensures RunEvent(s, step, p).open == if Opens(s, step) then true else if Closes(s, step) then false else s.open
  {
    hide DoRead, DoFlush;
    if s.fd.Some? && s.connect.Some? {
      FinishOpens(s, step.outcome, p);
      hide FinishConnect;
    } else if s.fd.Some? {
      var s1 := if s.read.Some? && step.r then DoRead(s, step.gets, p) else s;
      if s.read.Some? { ReadHeld(s, step.gets, p, 0); }
      if s1.write.Some? { FlushOpens(s1, step.sends, p); }
    }
  }

  lemma FinishOpens(s: Stream, outcome: Option<Err>, p: Poller)
    requires s.connect.Some?
    ensures FinishConnect(s, outcome, p).open == outcome.None?
  {
    hide UpdateInterest;
    var s1 := UpdateInterest(s.(connect := None), p);
    UpdateSame(if outcome.Some? then s1.(fd := None, open := false) else s1.(open := true), p);
  }

  lemma FlushOpens(s: Stream, sends: seq<Sent>, p: Poller)
    requires s.write.Some? && s.write.value.offset <= |s.write.value.data| && s.write.value.id in s.log.sent
    ensures DoFlush(s, sends, p).open == s.open
  {
    hide CompleteWrite, Flush;
    var w := s.write.value;
    var (offset, end) := Flush(w.offset, |w.data|, sends);
    var s1 := s.(write := Some(w.(offset := offset)),
                 log := s.log.(sent := s.log.sent[w.id := s.log.sent[w.id] + w.data[w.offset..offset]]));
    CompleteFrame(s1, None, |w.data|, p);
    match end
    case Broken(e) => CompleteFrame(s1, Some(e), offset, p);
    case _ =>
  }

  lemma BeginOpens(s: Stream, begun: Begun, p: Poller)
    ensures RunBeginConnect(s, begun, p).open == (s.open || Opens(s, BeginConnect(begun)))
  {
    hide CompleteConnect, UpdateInterest;
    if s.connect.Some? {
      match begun
      case NoSocket(e) => CompleteFrame(s.(fd := None), Some(e), 0, p);
      case Connected(fd) => CompleteFrame(s.(fd := Some(fd), open := true), None, 0, p);
      case InProgress(fd) => UpdateSame(s.(fd := Some(fd)), p);
      case Refused(fd, e) => CompleteFrame(s.(fd := Some(fd)), Some(e), 0, p);
    }
  }

  lemma InitiateOpens(s: Stream, step: Step, p: Poller)
    requires !s.gone && WriteRight(s) && (step.InitiateRead? || step.InitiateWrite?)
    ensures Next(s, step, p).open == s.open
  {
    hide UpdateInterest;
    var next := s.log.started;
    if step.InitiateRead? {
      UpdateSame(Started(s).(read := Some(ReadOp(next, step.size))), p);
    } else {
      var s1 := Started(s).(log := Started(s).log.(given := s.log.given[next := step.data], sent := s.log.sent[next := []]));
      UpdateSame(s1.(write := Some(WriteOp(next, step.data, 0))), p);
    }
  }

  lemma StepOpens(s: Stream, step: Step, p: Poller)
    requires !s.gone && WriteRight(s)
    ensures Next(s, step, p).open == if Opens(s, step) then true else if Closes(s, step) then false else s.open
  {
    hide RunEvent, RunInitiateRead, RunInitiateWrite, RunBeginConnect, CompleteConnect, CancelPending;
    CancelHeld(s, p, 0);
    CancelHeld(s.(open := false), p, 0);
    match step
    case BeginConnect(begun) => BeginOpens(s, begun, p);
    case Unresolved => CompleteFrame(s, Some(HostUnreachable), 0, p);
    case Event(_, _, _, _, _) => EventOpens(s, step, p);
    case InitiateRead(_) => InitiateOpens(s, step, p);
    case InitiateWrite(_) => InitiateOpens(s, step, p);
    case _ =>
  }

  /** Whether the last of the steps before `k` to open or close the stream opened it. */
  predicate OpenBy(states: seq<Stream>, turns: seq<Turn>, k: nat)
    requires k <= |turns| < |states|
  {
    if k == 0 then states[0].fd.Some?
    else Opens(states[k - 1], turns[k - 1].step) || (!Closes(states[k - 1], turns[k - 1].step) && OpenBy(states, turns, k - 1))
  }

  /** Over every run a stream is open exactly if it was made open or last connected, and not closed since. */
  lemma {:induction false} OpenExactly(states: seq<Stream>, turns: seq<Turn>, fd: Option<nat>, k: nat)
    requires IsRun(states, turns) && states[0] == Fresh(fd) && k < |states|
    ensures states[k].open <==> OpenBy(states, turns, k)
  {
    hide Next, Inv, Opens, Closes;
    if k > 0 {
      OpenExactly(states, turns, fd, k - 1);
      RunInv(states, turns, fd, k - 1);
      InvWrite(states[k - 1]);
      assert IsTurn(states[k - 1], turns[k - 1], states[k]);
      StepOpens(states[k - 1], turns[k - 1].step, turns[k - 1].poller);
    }
  }

  // ---------------------------------------------------------------- interest follows need

  /** The registry holds this stream's descriptor exactly when it should. */
  predicate RegistryFits(s: Stream) {
    && s.registered == (s.interest != IDLE) && (s.fd.None? ==> !s.registered)
    && s.registry == if s.registered then map[s.fd.value := s.interest] else map[]
  }

  /** What is registered is what the pending operations need. */
  predicate Registered(s: Stream) {
    RegistryFits(s) && (s.fd.Some? ==> s.interest == Want(s))
  }

  lemma UpdateFits(s: Stream, p: Poller)
    requires RegistryFits(s) && Accepting(p)
    ensures Registered(UpdateInterest(s, p))
  {
    if s.registered { assert map[s.fd.value := s.interest] - {s.fd.value} == map[]; }
  }

  lemma CompleteFits(s: Stream, error: Option<Err>, bytes: nat, p: Poller)
    requires RegistryFits(s) && Accepting(p)
    ensures s.read.Some? ==> Registered(CompleteRead(s, error, bytes, p))
    ensures s.write.Some? ==> Registered(CompleteWrite(s, error, bytes, p))
    ensures s.connect.Some? ==> Registered(CompleteConnect(s, error, p))
  {
    hide UpdateInterest;
    UpdateFits(s.(read := None), p);
    UpdateFits(s.(write := None), p);
    UpdateFits(s.(connect := None), p);
  }

  lemma CancelFits(s: Stream, p: Poller)
    requires Registered(s) && Accepting(p)
    ensures Registered(CancelPending(s, p))
  {
    hide CompleteRead, CompleteWrite, CompleteConnect;
    var s1 := if s.read.Some? then CompleteRead(s, Some(Canceled), 0, p) else s;
    CompleteFits(s, Some(Canceled), 0, p);
    var s2 := if s1.write.Some? then CompleteWrite(s1, Some(Canceled), s1.write.value.offset, p) else s1;
    if s1.write.Some? { CompleteFits(s1, Some(Canceled), s1.write.value.offset, p); }
    CompleteFits(s2, Some(Canceled), 0, p);
  }

  lemma DetachFits(s: Stream)
    requires RegistryFits(s)
    ensures Registered(Detach(s))
  {
    if s.registered { assert map[s.fd.value := s.interest] - {s.fd.value} == map[]; }
  }

  lemma CloseFits(s: Stream, p: Poller)
    requires Registered(s) && Accepting(p)
    ensures Registered(RunClose(s, p))
  {
    hide CancelPending, Detach;
    CancelFits(s.(open := false), p);
    DetachFits(CancelPending(s.(open := false), p));
  }

  /** A new connect starts from a stream without a socket. */
  lemma BeginFits(s: Stream, begun: Begun, p: Poller)
    requires Registered(s) && Accepting(p) && (s.connect.Some? ==> s.fd.None?)
    ensures Registered(RunBeginConnect(s, begun, p))
  {
    hide CompleteConnect, UpdateInterest;
    if s.connect.Some? {
      match begun
      case NoSocket(e) => CompleteFits(s.(fd := None), Some(e), 0, p);
      case Connected(fd) => CompleteFits(s.(fd := Some(fd), open := true), None, 0, p);
      case InProgress(fd) => UpdateFits(s.(fd := Some(fd)), p);
      case Refused(fd, e) => CompleteFits(s.(fd := Some(fd)), Some(e), 0, p);
    }
  }

  /** The descriptor the system hands out is not one the stream still holds. */
  predicate NewDescriptor(s: Stream, begun: Begun) { !begun.NoSocket? ==> s.fd != Some(begun.fd) }

  /**
   * Beginning a connect keeps the registration right exactly when no connect is
   * under way or the stream has no socket yet: a second beginning for the same
   * claim leaves the first socket registered and the new one not.
   */
  lemma BeginFitsExactly(s: Stream, begun: Begun, p: Poller)
    requires Registered(s) && Accepting(p) && NewDescriptor(s, begun)
    ensures Registered(RunBeginConnect(s, begun, p)) <==> s.connect.None? || s.fd.None?
  {
    if s.connect.None? || s.fd.None? {
      BeginFits(s, begun, p);
    } else {
      assert s.interest == Interest(true, true) && s.registry == map[s.fd.value := s.interest];
      var t := RunBeginConnect(s, begun, p);
      assert s.fd.value in t.registry;
    }
  }

  /**
   * A claim is cancelled while its host is being resolved, and made again; the
   * late answer of the first resolution then begins a second socket. The first
   * stays registered, the second, on which the connect waits, never is.
   */
  lemma SecondBeginning(p: Poller) returns (states: seq<Stream>, turns: seq<Turn>)
    requires Accepting(p)
    ensures IsRun(states, turns) && states[0] == Fresh(None) && |turns| == 5
    ensures turns[3].step == BeginConnect(InProgress(3)) && turns[4].step == BeginConnect(InProgress(4))
    ensures var s := states[5]; s.fd == Some(4) && s.connect.Some? && s.registry.Keys == {3} && !Registered(s)
  {
    var s0 := Fresh(None);
    var s1 := Next(s0, ClaimConnect, p);
    var s2 := Next(s1, Cancel, p);
    var s3 := Next(s2, ClaimConnect, p);
    var s4 := Next(s3, BeginConnect(InProgress(3)), p);
    var s5 := Next(s4, BeginConnect(InProgress(4)), p);
    assert s4.registry == map[3 := Interest(true, true)] && s5 == s4.(fd := Some(4));
    states := [s0, s1, s2, s3, s4, s5];
    turns := [Turn(ClaimConnect, p), Turn(Cancel, p), Turn(ClaimConnect, p),
              Turn(BeginConnect(InProgress(3)), p), Turn(BeginConnect(InProgress(4)), p)];
    hide Next;
  }

  lemma FinishFits(s: Stream, outcome: Option<Err>, p: Poller)
    requires Registered(s) && Accepting(p) && Shape(s) && s.connect.Some? && s.fd.Some?
    ensures Registered(FinishConnect(s, outcome, p))
  {
    hide UpdateInterest;
    var s1 := UpdateInterest(s.(connect := None), p);
    var s2 := if outcome.Some? then s1.(fd := None, open := false) else s1.(open := true);
    UpdateFits(s.(connect := None), p);
    UpdateSame(s.(connect := None), p);
    UpdateFits(s2, p);
  }

  lemma EventFits(s: Stream, step: Step, p: Poller)
    requires Registered(s) && Accepting(p) && Shape(s) && WriteRight(s) && step.Event?
    ensures Registered(RunEvent(s, step, p))
  {
    hide FinishConnect, CompleteRead, CompleteWrite, Flush, Receive;
    if s.fd.Some? && s.connect.Some? {
      FinishFits(s, step.outcome, p);
    } else if s.fd.Some? {
      var s1 := if s.read.Some? && step.r then DoRead(s, step.gets, p) else s;
      if s.read.Some? && Receive(s.read.value.size, step.gets).Some? {
        var r := Receive(s.read.value.size, step.gets).value;
        CompleteFits(s, r.0, r.1, p);
      }
      assert Registered(s1);
      if s.read.Some? { ReadHeld(s, step.gets, p, 0); }
      if s1.write.Some? { FlushFits(s1, step.sends, p); }
    }
  }

  lemma FlushFits(s: Stream, sends: seq<Sent>, p: Poller)
    requires Registered(s) && Accepting(p) && WriteRight(s) && s.write.Some?
    ensures Registered(DoFlush(s, sends, p))
  {
    hide CompleteWrite, Flush;
    var w := s.write.value;
    var (offset, end) := Flush(w.offset, |w.data|, sends);
    var s1 := s.(write := Some(w.(offset := offset)),
                 log := s.log.(sent := s.log.sent[w.id := s.log.sent[w.id] + w.data[w.offset..offset]]));
    CompleteFits(s1, None, |w.data|, p);
    if end.Broken? { CompleteFits(s1, Some(end.e), offset, p); }
  }

  lemma InitiateFits(s: Stream, step: Step, p: Poller)
    requires Registered(s) && Accepting(p) && !s.gone && WriteRight(s) && (step.InitiateRead? || step.InitiateWrite?)
    ensures Registered(Next(s, step, p))
  {
    hide UpdateInterest;
    var next := s.log.started;
    if step.InitiateRead? {
      UpdateFits(Started(s).(read := Some(ReadOp(next, step.size))), p);
    } else {
      var s1 := Started(s).(log := Started(s).log.(given := s.log.given[next := step.data], sent := s.log.sent[next := []]));
      UpdateFits(s1.(write := Some(WriteOp(next, step.data, 0))), p);
    }
  }

  lemma ClaimFits(s: Stream, p: Poller)
    requires Registered(s) && Accepting(p) && SentRight(s)
    ensures Registered(RunClaimConnect(s, p))
  {
    CloseFits(s, p);
    CloseSent(s, p);
    hide RunClose;
  }

  lemma StepFits(s: Stream, step: Step, p: Poller)
    requires Registered(s) && Accepting(p) && Inv(s) && !s.gone
    requires step.BeginConnect? ==> s.connect.None? || s.fd.None?
    ensures Registered(Next(s, step, p))
  {
    hide OnePlace, RunEvent, RunInitiateRead, RunInitiateWrite, RunClaimConnect, RunBeginConnect, CompleteConnect, CancelPending, Detach;
    match step
    case InitiateRead(_) => InitiateFits(s, step, p);
    case InitiateWrite(_) => InitiateFits(s, step, p);
    case ClaimConnect => ClaimFits(s, p);
    case BeginConnect(begun) => BeginFits(s, begun, p);
    case Unresolved => CompleteFits(s, Some(HostUnreachable), 0, p);
    case Cancel => CancelFits(s, p);
    case MarkClosed =>
    case Close => CloseFits(s, p);
    case Event(_, _, _, _, _) => EventFits(s, step, p);
    case LoopStopping => CancelFits(s, p);
    case Dispose =>
      CancelFits(s, p);
      DetachFits(CancelPending(s, p));
  }

  /**
   * Over every run whose poller accepts registrations and whose connects begin
   * once per claim, the poller watches exactly the directions the pending
   * operations need, on exactly the stream's own socket.
   */
  lemma {:induction false} InterestFollowsNeed(states: seq<Stream>, turns: seq<Turn>, fd: Option<nat>, k: nat)
    requires IsRun(states, turns) && states[0] == Fresh(fd) && k < |states|
    requires forall i :: 0 <= i < |turns| ==>
               Accepting(turns[i].poller) && (turns[i].step.BeginConnect? ==> states[i].connect.None? || states[i].fd.None?)
    ensures Registered(states[k])
  {
    if k > 0 {
      hide Next, Inv, Registered, Accepting;
      InterestFollowsNeed(states, turns, fd, k - 1);
      RunInv(states, turns, fd, k - 1);
      InvWrite(states[k - 1]);
      assert IsTurn(states[k - 1], turns[k - 1], states[k]);
      StepFits(states[k - 1], turns[k - 1].step, turns[k - 1].poller);
    }
  }

  // ---------------------------------------------------------------- the object

  class StreamState {
    var fd: Option<nat>
    var open: bool
    var gone: bool
    var read: Option<ReadOp>
    var write: Option<WriteOp>
    var connect: Option<nat>
    var interest: Interest
    var registered: bool
    var registry: map<nat, Interest>
    var log: Log

    function View(): Stream
      reads this
    {
      Stream(fd, open, gone, read, write, connect, interest, registered, registry, log)
    }

    constructor (fd: Option<nat>)
      ensures View() == Fresh(fd)
    {
      this.fd, open, gone, read, write, connect := fd, fd.Some?, false, None, None, None;
      interest, registered, registry, log := IDLE, false, map[], EMPTY_LOG;
    }

    method Update(p: Poller)
      modifies this`interest, this`registered, this`registry
      ensures View() == UpdateInterest(old(View()), p)
    {
      if fd.None? { return; }
      var want := Interest(read.Some? || connect.Some?, write.Some? || connect.Some?);
      if want == interest { return; }
      if want != IDLE {
        if registered && fd.value in registry && p.mod(want) {
          registry, interest := registry[fd.value := want], want;
          return;
        }
        if registered {
          registry, registered := registry - {fd.value}, false;
        }
        if fd.value !in registry && p.add(want) {
          registry, registered, interest := registry[fd.value := want], true, want;
        }
        return;
      }
      if registered {
        registry, registered := registry - {fd.value}, false;
      }
      interest := IDLE;
    }

    method Enqueue(done: Done)
      modifies this`log
      ensures View() == Post(old(View()), done)
    {
      log := log.(posted := log.posted + [done]);
    }

    method FinishRead(error: Option<Err>, bytes: nat, p: Poller)
      requires read.Some?
      modifies this`read, this`interest, this`registered, this`registry, this`log
      ensures View() == CompleteRead(old(View()), error, bytes, p)
    {
      hide UpdateInterest;
      var id := read.value.id;
      read := None;
      Update(p);
      Enqueue(Done(id, error, bytes));
    }

    method FinishWrite(error: Option<Err>, bytes: nat, p: Poller)
      requires write.Some?
      modifies this`write, this`interest, this`registered, this`registry, this`log
      ensures View() == CompleteWrite(old(View()), error, bytes, p)
    {
      hide UpdateInterest;
      var id := write.value.id;
      write := None;
      Update(p);
      Enqueue(Done(id, error, bytes));
    }

    method CompletePendingConnect(error: Option<Err>, p: Poller)
      requires connect.Some?
      modifies this`connect, this`interest, this`registered, this`registry, this`log
      ensures View() == CompleteConnect(old(View()), error, p)
    {
      hide UpdateInterest;
      var id := connect.value;
      connect := None;
      Update(p);
      Enqueue(Done(id, error, 0));
    }

    method InitiateRead(size: nat, p: Poller) returns (accepted: bool)
      modifies this
      ensures View() == RunInitiateRead(old(View()), size, p)
      ensures accepted <==> !(old(Usable(View())) && old(read).Some?)
    {
      hide UpdateInterest;
      var id := log.started;
      if fd.None? || !open {
        log := log.(started := id + 1);
        Enqueue(Done(id, Some(BadDescriptor), 0));
        return true;
      }
      if read.Some? { return false; }
      log := log.(started := id + 1);
      read := Some(ReadOp(id, size));
      Update(p);
      return true;
    }

    method InitiateWrite(data: Bytes, p: Poller) returns (accepted: bool)
      modifies this
      ensures View() == RunInitiateWrite(old(View()), data, p)
      ensures accepted <==> !(old(Usable(View())) && old(write).Some?)
    {
      hide UpdateInterest;
      var id := log.started;
      if Usable(View()) && write.Some? { return false; }
      log := log.(started := id + 1, given := log.given[id := data], sent := log.sent[id := []]);
      if fd.None? || !open {
        Enqueue(Done(id, Some(BadDescriptor), 0));
        return true;
      }
      write := Some(WriteOp(id, data, 0));
      Update(p);
      return true;
    }

    method CancelAll(p: Poller)
      modifies this
      ensures View() == CancelPending(old(View()), p)
    {
      hide CompleteRead, CompleteWrite, CompleteConnect;
      if read.Some? { FinishRead(Some(Canceled), 0, p); }
      if write.Some? {
        var transferred := write.value.offset;
        FinishWrite(Some(Canceled), transferred, p);
      }
      if connect.Some? { CompletePendingConnect(Some(Canceled), p); }
    }

    method Release()
      modifies this
      ensures View() == Detach(old(View()))
    {
      if fd.Some? {
        if registered {
          registry, registered := registry - {fd.value}, false;
        }
        interest, fd := IDLE, None;
      }
    }

    method Close(p: Poller)
      modifies this
      ensures View() == RunClose(old(View()), p)
    {
      hide CancelPending, Detach;
      open := false;
      CancelAll(p);
      Release();
    }

    method Claim(p: Poller) returns (accepted: bool)
      modifies this
      ensures View() == RunClaimConnect(old(View()), p) && (accepted <==> old(connect).None?)
    {
      if connect.Some? { return false; }
      var id := log.started;
      StartedClose(View(), p);
      hide RunClose;
      if fd.Some? { Close(p); }
      log := log.(started := log.started + 1);
      connect := Some(id);
      return true;
    }

    method Begin(begun: Begun, p: Poller)
      modifies this
      ensures View() == RunBeginConnect(old(View()), begun, p)
    {
      hide UpdateInterest, CompleteConnect;
      if connect.None? { return; }
      match begun
      case NoSocket(e) =>
        fd := None;
        CompletePendingConnect(Some(e), p);
      case Connected(socket) =>
        fd, open := Some(socket), true;
        CompletePendingConnect(None, p);
      case InProgress(socket) =>
        fd := Some(socket);
        Update(p);
      case Refused(socket, e) =>
        fd := Some(socket);
        CompletePendingConnect(Some(e), p);
    }

    /** The outcome of a connect under way has arrived. */
    method ConnectOutcome(outcome: Option<Err>, p: Poller)
      requires connect.Some?
      modifies this
      ensures View() == FinishConnect(old(View()), outcome, p)
    {
      hide UpdateInterest;
      var id := connect.value;
      connect := None;
      Update(p);
      if outcome.Some? {
        fd, open := None, false;
      } else {
        open := true;
      }
      Update(p);
      Enqueue(Done(id, outcome, 0));
    }

    method ReadLoop(gets: seq<Got>, p: Poller)
      requires read.Some?
      modifies this
      ensures View() == DoRead(old(View()), gets, p)
    {
      hide CompleteRead;
      var size := read.value.size;
      if size == 0 {
        FinishRead(None, 0, p);
        return;
      }
      var i := 0;
      while i < |gets|
        invariant i <= |gets| && Receive(size, gets) == Receive(size, gets[i..])
        invariant View() == old(View())
      {
        assert gets[i..][1..] == gets[i + 1..];
        match gets[i] {
          case Bytes(data) =>
            if data == [] {
              FinishRead(Some(EndOfStream), 0, p);
            } else {
              FinishRead(None, if |data| <= size then |data| else size, p);
            }
            return;
          case ReadInterrupted =>
          case ReadWouldBlock => return;
          case ReadFailed(e) =>
            FinishRead(Some(e), 0, p);
            return;
        }
        i := i + 1;
      }
    }

    /** Sends what is left, chunk after chunk; `taken` is what the socket took. */
    method SendLoop(data: Bytes, start: nat, sends: seq<Sent>) returns (offset: nat, end: FlushEnd, taken: Bytes)
      requires start <= |data|
      ensures (offset, end) == Flush(start, |data|, sends) && taken == data[start..offset]
    {
      offset, taken := start, [];
      var i := 0;
      while offset < |data|
        invariant start <= offset <= |data| && i <= |sends| && taken == data[start..offset]
        invariant Flush(start, |data|, sends) == Flush(offset, |data|, sends[i..])
        decreases |sends| - i
      {
        if i == |sends| { return offset, StillArmed, taken; }
        assert sends[i..][1..] == sends[i + 1..];
        match sends[i] {
          case Took(more) =>
            var reached := Moved(offset, |data|, more);
            taken := taken + data[offset..reached];
            offset := reached;
          case SendInterrupted =>
          case SendWouldBlock => return offset, StillArmed, taken;
          case SendFailed(e) => return offset, Broken(e), taken;
        }
        i := i + 1;
      }
      end := Finished;
    }

    method WriteLoop(sends: seq<Sent>, p: Poller)
      requires write.Some? && write.value.offset <= |write.value.data| && write.value.id in log.sent
      modifies this
      ensures View() == DoFlush(old(View()), sends, p)
    {
      hide CompleteWrite, Flush;
      var w := write.value;
      var offset, end, taken := SendLoop(w.data, w.offset, sends);
      write := Some(w.(offset := offset));
      log := log.(sent := log.sent[w.id := log.sent[w.id] + taken]);
      match end
      case StillArmed =>
      case Finished => FinishWrite(None, |w.data|, p);
      case Broken(e) => FinishWrite(Some(e), offset, p);
    }

    method OnEvent(step: Step, p: Poller)
      requires step.Event? && WriteRight(View())
      modifies this
      ensures View() == RunEvent(old(View()), step, p)
    {
      hide FinishConnect, DoRead, DoFlush;
      if fd.None? { return; }
      if connect.Some? {
        if step.r || step.w { ConnectOutcome(step.outcome, p); }
        return;
      }
      if read.Some? && step.r {
        ReadHeld(View(), step.gets, p, 0);
        ReadLoop(step.gets, p);
      }
      if fd.Some? && write.Some? && step.w { WriteLoop(step.sends, p); }
    }
  }
}
