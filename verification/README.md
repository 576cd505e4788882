# ProtoRelay, modelled and proved

A Dafny model of the parts of ProtoRelay where correctness is hard to see from
any one function:

- **The node mesh.** Envelope and link wire formats, frame reassembly, the
  signed-challenge handshake, the request table under concurrent callers,
  epoch-ordered trust and revocation, the recency cache behind the replay
  guards, the router, and whole meshes of routers over any link graph.
- **The native runtime.** The event loop with its wake pipe and shutdown, the
  shared timer wheel, and the nonblocking stream.
- **The line folder** that cleans inbound mail bodies before they are stored.

Each executor task, locked region or atomic operation is one step. Clocks,
random nonces and ids, signing, verifying, sealing and opening are parameters.
Concurrency is a pool of outstanding work from which any element may go next, so
the theorems hold for every interleaving. Objects the program updates in place
are classes whose methods, loops included, are proved equal to pure step
functions; the state machines run those same functions.

| module | what it is |
|---|---|
| `ByteCodec`, `Seqs` | big-endian fields, length prefixes; bags and sums over sequences |
| `EnvelopeCodec`, `LinkCodec` | the two wire formats |
| `LinkStream` | frames out of a byte stream, and one connection end to end |
| `Link`, `LinkRequests`, `LinkEvents`, `HandshakeAgreement`, `Revocation`, `Trust` | the link and what surrounds it |
| `Lru`, `ReplayGuard` | the recency cache and the guards built from it |
| `Router`, `RouterLaws` | one router: pure steps and the object; what it hands over, sends, relays and reports |
| `Mesh`, `MeshAccounting`, `MeshCompletions`, `MeshRoutes`, `MeshJourney`, `MeshReplay` | many routers: quiescence, accounting, what senders are told, routes, journeys, replay |
| `EventLoop`, `Timers`, `Stream` | the native runtime |
| `LineFolder` | dot-unstuffing and folding |

## Where the code and its promises differ

Each of these is stated as an exact condition, with a concrete case where one is
needed.

- `encode_envelope` throws inside the posted task when an unencrypted message
  carries a version other than 1 or a payload of 2^32 bytes or more. The
  completion is then destroyed uncalled (`LostExactly`, `LosesCompletion`). Every
  other completion runs exactly once (`CompletionOnce`).
- `invoke_when_live` is meant never to strand its caller. It can, between the
  loop's last look at its queue and its exit (`AcceptedYetStranded`). When
  shutdowns wait for tasks, a job is run if and only if it was pushed before the
  thread got there (`RunIffPushedInTime`).
- `utf8_boundary` is described as backing up at most three bytes, but backs up to
  the start of the line. Folding a line therefore never ends exactly when a
  boundary byte is followed by 4094 continuation bytes, or bytes 1 to 4095 of a
  longer line all continue (`FoldingEndsExactly`); 4096 continuation bytes are
  such a line (`NeverEnds`).
- `auth_message` is symmetric unless an id meets itself with two nonces
  (`AuthMessageSymmetric`); the handlers refuse that meeting.
- Trust updates converge in any order exactly when the newest epoch names one
  snapshot (`ConvergesIffSettled`); two snapshots of one epoch do not
  (`OrderMatters`).
- Beginning a second socket for one claimed connect leaves the first registered
  with the poller and the second not (`BeginFitsExactly`). The late answer of a
  cancelled claim's host resolution does that (`SecondBeginning`).

## Model

| member | source | states |
|---|---|---|
| `EnvelopeCodec.DecodeWire` | src/framework/node/node_proto.cpp:130-187 | for every well-formed envelope and all limits: decoding its bytes gives the envelope exactly when it is encodable and within the limits, otherwise the exact refusal |
| `EnvelopeCodec.DecodeEncode` | src/framework/node/node_proto.cpp:130-187 | encode then decode is the identity exactly within the receiver's limits |
| `EnvelopeCodec.EncodeDecode` | src/framework/node/node_proto.cpp:144-187 | whatever decodes as ok re-encodes to the identical bytes and is within the limits |
| `EnvelopeCodec.EncodeDecodeUnknown` | src/framework/node/node_proto.cpp:144-187 | the same for an unregistered type byte, up to that byte |
| `EnvelopeCodec.ScanEnvelope` | src/framework/node/node_proto.cpp:144-187 | the scanner with its moving position computes the decoding function |
| `EnvelopeCodec.ScanHops` | src/framework/node/node_proto.cpp:174-178 | the hop loop reads exactly the counted, bounded ids or fails |
| `EnvelopeCodec.RewriteBytes` | src/framework/node/node_proto.cpp:393-395 | rewriting ttl and route_pos changes those five bytes and no other, never the length |
| `EnvelopeCodec.AadBinds` | src/framework/node/node_proto.cpp:275-287 | sender and destination derive the same additional data exactly when every field but ttl, route_pos and payload agrees |
| `EnvelopeCodec.Layout` | src/framework/node/node_proto.cpp:47-70 | one envelope byte by byte: every field in its place, big-endian |
| `LinkCodec.DecodeFrameBody` | src/framework/node/node_link.cpp:142-161 | a frame body decodes to the frame exactly when it is well formed |
| `LinkCodec.FrameBodyDecode` | src/framework/node/node_link.cpp:153-161 | every accepted body is the encoding of its frame |
| `LinkCodec.DecodeEncodeIdentity` | src/framework/node/node_link.cpp:50-86 | challenges and responses decode to what was encoded, exactly for ids and tails of the right length |
| `LinkCodec.EncodeDecodeIdentity` | src/framework/node/node_link.cpp:59-86 | every accepted challenge or response is canonical |
| `LinkCodec.AuthMessageSymmetric` | src/framework/node/node_link.cpp:89-95 | both sides compute the same bytes if and only if the ids differ or the nonces agree |
| `LinkCodec.AuthMessageInjective` | src/framework/node/node_link.cpp:89-95 | the signed bytes determine the unordered pair of parties, and nothing coarser |
| `LinkCodec.DecodeEncodeUpdate` | src/framework/node/node_link.cpp:99-140 | a signed trust update decodes to its content exactly when the signature has 64 bytes |
| `LinkCodec.EncodeDecodeUpdate` | src/framework/node/node_link.cpp:99-140 | every accepted update is the canonical encoding of its content followed by the signature |
| `LinkCodec.SignedPrefixDetermines` | src/framework/node/node_link.cpp:405-423 | equal signed prefixes carry equal content |
| `LinkCodec.Layout` | src/framework/node/node_link.cpp:142-152 | one frame and one challenge byte by byte |
| `LinkStream.FrameReader.Consume` | src/framework/node/node_link.cpp:286-300 | the consume loop equals draining the buffer frame by frame |
| `LinkStream.FrameReader.constructor` | src/framework/node/node_link.cpp:242-266 | an open link that holds no bytes and has handled nothing |
| `LinkStream.FrameReader.Disconnect` | src/framework/node/node_link.cpp:499-515 | the buffer is dropped, what was handled stays |
| `LinkStream.DrainAppend` | src/framework/node/node_link.cpp:286-300 | draining what has arrived and then the rest is draining it all at once |
| `LinkStream.ChunkingIrrelevant` | src/framework/node/node_link.cpp:286-300 | any cutting of the stream gives the same frames, leftover and outcome |
| `LinkStream.LeftoverBound` | src/framework/node/node_link.cpp:286-300 | the leftover stays below one maximal frame with its length, and a downed link keeps none |
| `LinkStream.StaysOpen` | src/framework/node/node_link.cpp:286-300 | agreeable frames never take the receiving link down, over every run |
| `LinkStream.FifoPrefix` | src/framework/node/node_link.cpp:443-459 | over every run of a connection, the frames handled are a prefix of the frames enqueued |
| `LinkStream.QuietMeansDelivered` | src/framework/node/node_link.cpp:443-459 | with queue and channel empty, every frame was handled once and in order |
| `Lru.LruCache.constructor` | include/framework/cache/lru_cache.h:33-34 | an empty cache, its capacity at least one |
| `Lru.LruCache.Lookup` | include/framework/cache/lru_cache.h:36-48 | the value, whether it is stale by its own insertion time, and the entry moved to the front, list and map still a bijection |
| `Lru.LruCache.Insert` | include/framework/cache/lru_cache.h:50-68 | the entry in front, the oldest evicted when full, list and map still a bijection |
| `Lru.LruCache.Drop` | include/framework/cache/lru_cache.h:70-78 | the entry gone and nothing else changed |
| `Lru.LruCache.DropIf` | include/framework/cache/lru_cache.h:80-92 | the erase loop removes exactly the matching entries and keeps the order |
| `Lru.Refinement` | include/framework/cache/lru_cache.h:36-92 | after any operations the list is a timestamp cache read newest first: the most recently touched surviving keys, each with its last value and the time of that put |
| `ReplayGuard.TouchBehind` | src/framework/node/node_proto.cpp:464-470 | one check moves a remembered key back exactly when a key not in front of it is checked, and forgets it exactly when that fills the cache |
| `ReplayGuard.SeenWindow` | src/framework/node/node_proto.cpp:464-470 | an id counts as seen exactly when fewer than the capacity of distinct other ids followed its last check |
| `ReplayGuard.NeverSeen` | src/framework/node/node_proto.cpp:464-470 | an id never checked is never reported seen |
| `ReplayGuard.NonceGuard.SeenAndInsert` | src/framework/node/node_proto.cpp:451-462 | the nested guard in place computes the two-level step |
| `ReplayGuard.CheckNonce` | src/framework/node/node_proto.cpp:451-462 | the window of the source fetched or created, then the nonce checked and inserted in it |
| `ReplayGuard.NonceWindow` | src/framework/node/node_proto.cpp:451-462 | exactly when a (source, nonce) pair is still rejected, for any history |
| `ReplayGuard.ReplayNeedsChurn` | src/framework/node/node_proto.cpp:451-462 | a pair passes twice only after nonce_capacity other nonces of its source or max_tracked_sources other sources |
| `ReplayGuard.ChurnSince` | src/framework/node/node_proto.cpp:451-462 | the same counting from any earlier check, whatever was rejected in between |
| `ReplayGuard.IdChurnSince` | src/framework/node/node_proto.cpp:464-470 | the same for the id guard |
| `Trust.KeyMeansTrusted` | include/framework/node/node_trust.h:51-62 | a neighbor is trusted exactly when it has a 32-byte key, which is one of the snapshot's |
| `Trust.TrustStore.constructor` | src/framework/node/node_trust.cpp:10-16 | the initial snapshot, under the condition on keys that the source throws without |
| `Trust.TrustStore.ApplySnapshot` | src/framework/node/node_trust.cpp:18-33 | the snapshot is replaced and the listeners notified exactly on a newer well-formed one |
| `Trust.TrustStore.AddListener` | src/framework/node/node_trust.cpp:35-39 | the listener is appended |
| `Trust.TrustStore.FindKey` | include/framework/node/node_trust.h:51-56 | the scan finds the neighbor's key or none |
| `Trust.TrustStore.IsTrusted` | include/framework/node/node_trust.h:57-62 | the scan decides membership |
| `Trust.EndsNewest` | src/framework/node/node_trust.cpp:18-33 | any order with any repeats ends in a newest candidate, and each change raises the epoch |
| `Trust.ConvergesIffSettled` | src/framework/node/node_trust.cpp:18-33 | order and repeats never matter if and only if the newest epoch names one snapshot |
| `Trust.FirstStays` | src/framework/node/node_trust.cpp:18-33 | of two well-formed snapshots of one epoch the first stays |
| `Trust.OrderMatters` | src/framework/node/node_trust.cpp:18-33 | two different well-formed snapshots of one epoch: whichever comes first stays |
| `Link.NodeLink.StartRequest` | src/framework/node/node_link.cpp:530-560 | a posted request in place: every refusal, registration and queueing |
| `Link.NodeLink.constructor` | src/framework/node/node_link.cpp:163-176 | a link that is down, with nothing pending or queued |
| `Link.NodeLink.CompleteOne` | src/framework/node/node_link.cpp:483-492 | a pending request completes and gives its place back, an unknown id does nothing |
| `Link.NodeLink.CompletePending` | src/framework/node/node_link.cpp:499-515 | the loop completes every pending request, in id order |
| `Link.NodeLink.Push` | src/framework/node/node_link.cpp:443-449 | a frame is queued exactly when it is small enough, the queue has room and the link is connected; otherwise it is refused and nothing changes |
| `Link.NodeLink.TearDown` | src/framework/node/node_link.cpp:499-515 | everything the link forgets and completes when it goes down |
| `Link.NodeLink.OnAttach` | src/framework/node/node_link.cpp:242-266 | a new connection: fresh nonce, fresh handshake, first frame |
| `Link.NodeLink.OnHello` | src/framework/node/node_link.cpp:364-387 | a challenge in place: every refusal, the nonce remembered, the answer signed |
| `Link.NodeLink.OnHelloAuth` | src/framework/node/node_link.cpp:388-404 | a response in place: ready exactly on a verified signature of the challenged peer |
| `Link.NodeLink.OnTrustChange` | src/framework/node/node_link.cpp:424-442 | a trust change in place |
| `Link.NodeLink.OnStop` | src/framework/node/node_link.cpp:596-604 | stopping in place |
| `Link.FrameInv` | src/framework/node/node_link.cpp:301-346 | every frame keeps: pending requests only on a ready connected link, the table ascending, the write queue and the remembered nonces within their limits |
| `Link.RequestInv` | src/framework/node/node_link.cpp:530-560 | so does a posted request |
| `Link.DisconnectInv` | src/framework/node/node_link.cpp:499-515 | so does going down, which leaves nothing pending |
| `Link.HelloAnsweredExactly` | src/framework/node/node_link.cpp:347-387 | a challenge is taken up if and only if it is awaited and comes from a nonempty, foreign, trusted id, the expected one if any, with a nonce not remembered; then exactly the two challenges are signed, the nonce is remembered and the signature queued, or the link goes down because it cannot be; otherwise the key is not used |
| `Link.ReadyExactly` | src/framework/node/node_link.cpp:388-404 | a response makes the link ready, with the challenged peer, if and only if that peer's signature of both challenges verifies |
| `Link.UpdateTakenExactly` | src/framework/node/node_link.cpp:405-423 | a controller update is taken up if and only if the handshake is done and the payload is its canonical encoding followed by the controller's signature of exactly those bytes |
| `LinkRequests.RunRequestAbsorbs` | src/framework/node/node_link.cpp:540-559 | a posted task registers its request or refuses it, and uses up exactly one claim |
| `LinkRequests.FrameSettles` | src/framework/node/node_link.cpp:301-346 | a frame moves ids only from pending to completed, each with its claim |
| `Link.RegisteredMeansQueued` | src/framework/node/node_link.cpp:530-560 | a request that passes the checks is always queued: the give-up path after registration is never taken |
| `LinkRequests.ExactlyOnePlace` | src/framework/node/node_link.cpp:483-515 | over every interleaving, each id issued is with its caller, in a posted task, in the table or completed, once |
| `LinkRequests.CapacityAccounted` | src/framework/node/node_link.cpp:530-563 | the counter equals the claims in the system, granted claims never exceed the limit, pending implies ready implies connected |
| `LinkRequests.RecheckNeverFires` | src/framework/node/node_link.cpp:546-547 | when a posted request runs, the table has room |
| `LinkRequests.ExpectedPeer` | src/framework/node/node_link.cpp:301-351 | over every run, authenticated or not, a link meant for one peer is ready only with that peer |
| `LinkRequests.RepliesExactly` | src/framework/node/node_link.cpp:483-563 | over every run a request has been completed with a reply if and only if some step caused it: the response with its id, carrying its payload; a timeout or cancellation; the named refusal of its own task; or whatever took the link down while it was pending, with that error |
| `LinkRequests.ComesBack` | src/framework/node/node_link.cpp:499-529 | a connecting link that was up and went down has a reconnect scheduled, unless stopped or its peer revoked |
| `LinkRequests.StoppedForGood` | src/framework/node/node_link.cpp:596-604 | once a stop has run, the link stays down, with nothing pending and no reconnect scheduled |
| `LinkEvents.EventsExactly` | src/framework/node/node_link.cpp:301-346 | over every run the application has been told exactly what the steps so far told it, in order: up on the handshake's end, down with the error of each failure by its cause, each request with its id and each notification |
| `LinkEvents.HandedWhileUp` | src/framework/node/node_link.cpp:493-515 | over every run the last announcement was up exactly when the link is ready, and requests and notifications reach the application only between up and the next down |
| `LinkEvents.QueueExactly` | src/framework/node/node_link.cpp:443-459 | over every run the write queue is the unwritten rest of what the connection was asked to carry: its hello, a response per challenge taken up, a pong per ping, each admitted request with its id and payload, in order |
| `HandshakeAgreement.VerifiedMeansAnswered` | src/framework/node/node_link.cpp:388-404 | a verified response comes from a session of the peer that saw this challenge |
| `HandshakeAgreement.Agreement` | src/framework/node/node_link.cpp:347-404 | over every run with an arbitrary network and any set of corrupt keys, ready with an uncorrupt B means B signed in a session whose own nonce is the one received and whose peer challenge was exactly ours |
| `HandshakeAgreement.OneToOne` | src/framework/node/node_link.cpp:364-404 | with nonces that never repeat, the matching session is unique and no two ready links share it |
| `HandshakeAgreement.ExpectedPeer` | src/framework/node/node_link.cpp:347-351 | over every run of the authenticated handshake a ready link's peer is the expected one, if one is expected |
| `HandshakeAgreement.SignsExactly` | src/framework/node/node_link.cpp:347-387 | over every run a node's key is used exactly for challenges from a nonempty, foreign, trusted id, the expected one if any, whose nonce is not among the last 256 the link took up; and it signs exactly the two challenges |
| `Revocation.RevocationSafety` | src/framework/node/node_link.cpp:388-442 | in every reachable state a ready unstopped link's peer is trusted now or an update without it is on its way to the link |
| `Revocation.QuietMeansTrusted` | src/framework/node/node_link.cpp:424-442 | once nothing is outstanding, ready means trusted |
| `Revocation.RecheckRevokes` | src/framework/node/node_link.cpp:424-442 | a recheck without the peer takes a ready link down, marks it revoked and leaves no reconnect scheduled |
| `Revocation.FrameKeepsPeer` | src/framework/node/node_link.cpp:301-346 | in authenticated mode no frame but a handshake response makes a link ready or changes a ready link's peer |
| `Revocation.StoreSigned` | src/framework/node/node_link.cpp:405-423 | over every run the store holds its initial snapshot, one a local caller applied, or one that came signed by the controller, and only ever moves to a newer epoch |
| `Revocation.StoreNewest` | src/framework/node/node_link.cpp:405-423 | over every run the store is never older than a well-formed snapshot applied locally or received signed so far |
| `Router.NodeRouter.constructor` | src/framework/node/node_proto.cpp:198-207 | a router that has seen, linked and claimed nothing |
| `Router.NodeRouter.CheckRoute` | src/framework/node/node_proto.cpp:268-272 | the loop accepts exactly the routes of distinct, bounded hops without this node and the destination |
| `Router.NodeRouter.OnSend` | src/framework/node/node_proto.cpp:259-297 | sending in place: every refusal in order, sealing, the lost completion, the handoff |
| `Router.NodeRouter.OnReceive` | src/framework/node/node_proto.cpp:299-315 | receiving in place: decode, report, deliver or forward |
| `Router.NodeRouter.OnDeliver` | src/framework/node/node_proto.cpp:317-368 | delivery in place: clock, nonce and id guards in order, then acceptance |
| `Router.NodeRouter.OnForward` | src/framework/node/node_proto.cpp:370-396 | forwarding in place: the guard, the three reports, the rewritten envelope |
| `Router.NodeRouter.OnHandoff` | src/framework/node/node_proto.cpp:412-421 | a handoff claims its place in flight before it is judged |
| `Router.NodeRouter.OnAdmit` | src/framework/node/node_proto.cpp:421-433 | the claim is judged by the count before it, and given back on refusal |
| `Router.NodeRouter.Route` | src/framework/node/node_proto.cpp:427-436 | the neighbor is looked up; a missing one is reported and the place given back |
| `Router.NodeRouter.OnCallback` | src/framework/node/node_proto.cpp:436-443 | the link's answer gives the place back, reports a failure and runs the completion |
| `Router.NodeRouter.SeenNonce` | src/framework/node/node_proto.cpp:451-462 | the nonce guard in place |
| `Router.NodeRouter.SeenMessage` | src/framework/node/node_proto.cpp:464-470 | the id guard in place |
| `RouterLaws.HandedExactly` | src/framework/node/node_proto.cpp:299-368 | for every router, wire and environment the application is handed a message if and only if the wire decodes to a data or ack envelope for this node, in tolerance, its pair and id not seen, and unencrypted or opened with a known key; then exactly that envelope with exactly that plaintext |
| `RouterLaws.SetOffExactly` | src/framework/node/node_proto.cpp:299-410 | what an arrival sets off: exactly one report with the code of its complaint (decrypt failure is 4), exactly one ack of a probe carrying its id and plaintext, the envelope passed on with one hop spent, or nothing |
| `RouterLaws.ToldExactly` | src/framework/node/node_proto.cpp:350-354 | a readable report tells the application the code and message id its author wrote |
| `RouterLaws.ToldNothing` | src/framework/node/node_proto.cpp:350-354 | no other arrival tells it anything |
| `RouterLaws.ClockExact` | src/framework/node/node_proto.cpp:320-326 | for times before the sign bit the clock check means a difference of at most the tolerance |
| `RouterLaws.ReportMakes` | src/framework/node/node_proto.cpp:398-410 | a report is made exactly once, to the author along the return route with the code and the id, unless silenced, about this node itself or after a stop |
| `RouterLaws.FailureReported` | src/framework/node/node_proto.cpp:412-445 | a failing handoff is reported once with exactly its code: overflow for no room, unroutable for no neighbor or any other answer of the link |
| `RouterLaws.SentAsAsked` | src/framework/node/node_proto.cpp:250-297 | whatever is sent is the message asked for with only its unset fields filled in, sealed under its key when asked, headed to its first hop with its completion |
| `Mesh.TaskShrinks` | src/framework/node/node_proto.cpp:299-445 | every task, in any router state and for any link answer, posts work of strictly less weight and makes at most one envelope |
| `Mesh.ReceiveLoad` | src/framework/node/node_proto.cpp:299-396 | what an arriving wire sets off weighs less than the wire |
| `Mesh.Quiescence` | src/framework/node/node_proto.cpp:299-445 | with no new send, the work done and the envelopes created in any run are bounded by the weight outstanding at its start |
| `Mesh.ErrorsAreSilent` | src/framework/node/node_proto.cpp:317-319 | an error envelope never leads to another envelope, at any router in any state |
| `Mesh.SilentStaysSilent` | src/framework/node/node_proto.cpp:398-445 | work with a silent return path never produces a report, whatever happens to it |
| `MeshAccounting.ExecuteConserves` | src/framework/node/node_proto.cpp:259-445 | each task moves the counter with its claims and passes on, runs or destroys its completion, exactly once |
| `MeshAccounting.InFlightAccounted` | src/framework/node/node_proto.cpp:412-445 | over every run, each router's counter is the work past its claim and before its link's answer, and admitted work never exceeds max_in_flight |
| `MeshAccounting.LostExactly` | src/framework/node/node_proto.cpp:259-297 | a completion is destroyed uncalled if and only if the message passes every check and its encoding throws |
| `MeshAccounting.LosesCompletion` | src/framework/node/node_proto.cpp:130-142 | a concrete message that loses its completion |
| `MeshAccounting.CompletionOnce` | src/framework/node/node_proto.cpp:243-297 | over every run each completion is outstanding, run once or destroyed; at rest every other completion has run exactly once |
| `MeshCompletions.SendEnds` | src/framework/node/node_proto.cpp:259-297 | a send, when it runs, ends its completion exactly with the first refusal that applies, by name |
| `MeshCompletions.ToldForCause` | src/framework/node/node_proto.cpp:412-445 | over every run a completion has been told an outcome if and only if some step decided exactly that outcome (the link's own answer, a missing neighbor, no room, a stop, or the named refusal of the send) and no work for it is outstanding |
| `MeshCompletions.SuccessIsReal` | src/framework/node/node_proto.cpp:436-443 | over every run a caller told of success has a step in which its link took the message |
| `MeshRoutes.OnCourse` | src/framework/node/node_proto.cpp:250-396 | over every run, whatever is in flight is its author's envelope but for ttl and route_pos, headed where its route says, relayed so far by its hops in order, with the reverse of those hops as return path; every envelope was asked for or answers an earlier one along the reverse of the hops that one consumed |
| `MeshRoutes.ExecuteLegs` | src/framework/node/node_proto.cpp:299-445 | each task of a leg continues that leg, the next one, or answers the author |
| `MeshRoutes.ReportLegs` | src/framework/node/node_proto.cpp:398-410 | a report about an envelope carries the reverse of the hops it consumed, from the node it had reached to its author |
| `MeshRoutes.NeverOffPath` | src/framework/node/node_proto.cpp:379-388 | no run brings an envelope to a node off its path or delivers it before its route is consumed |
| `MeshRoutes.AnswersEnd` | src/framework/node/node_proto.cpp:355-366 | an answer to an answer is an error about an ack |
| `MeshJourney.Journey` | src/framework/node/node_proto.cpp:370-396 | with willing hops a message visits exactly its remaining route in order, up to the destination or the hop where its budget ends, and touches nobody else |
| `MeshJourney.Exhausted` | src/framework/node/node_proto.cpp:389-392 | the hop where the budget ends reports exactly that to the author along the hops consumed |
| `MeshJourney.EndToEnd` | src/framework/node/node_proto.cpp:259-368 | a message accepted by send with willing hops, enough budget and an accepting destination is delivered with exactly the sender's fields and payload, sealed or not |
| `MeshJourney.Unsealed` | src/framework/node/node_proto.cpp:331-348 | the destination reads the sender's plaintext although ttl and route_pos changed under way |
| `MeshJourney.ReturnsHome` | src/framework/node/node_proto.cpp:355-410 | on symmetric links a report or ack walks back through exactly the relays consumed, last first, to the author |
| `MeshReplay.GuardsLogged` | src/framework/node/node_proto.cpp:451-470 | over every run, the nonce and id guards of each router are exactly what the checks of its arrivals so far make of empty ones |
| `MeshReplay.TwoAcceptances` | src/framework/node/node_proto.cpp:317-330 | over every run, an envelope that gets past one router's clock and nonce guard twice does so within twice the tolerance, and only after nonce_capacity other nonces of its source or max_tracked_sources other sources were checked there in between |
| `MeshReplay.RejectedExactly` | src/framework/node/node_proto.cpp:324-327 | over every run, exactly when a pair checked before is still rejected |
| `MeshReplay.RingGuarded` | src/framework/node/node_proto.cpp:374-374 | over every run, a router lets one message id pass twice only after as many other ids as its guard holds were checked there in between |
| `MeshReplay.ReceiveChecks` | src/framework/node/node_proto.cpp:317-374 | which pair and which id an arrival has checked, in every branch, and the guards after it |
| `MeshReplay.OthersCheckNothing` | src/framework/node/node_proto.cpp:412-445 | no other task touches the guards |
| `EventLoop.NoLostWakeup` | src/framework/net/native_runtime.cpp:50-60 | over every run: a blocked loop with work has a byte in the pipe or a writer on the way, and with a corpse queued that or its wake about to be pushed; jobs are taken in order, once, each exactly one round after its push; corpses are disposed of once |
| `EventLoop.StepInv` | src/framework/net/native_runtime.cpp:185-288 | every step of any thread keeps the invariants behind that |
| `EventLoop.Progress` | src/framework/net/native_runtime.cpp:185-288 | once posters rest the loop takes every pushed job within a bound known beforehand |
| `EventLoop.StrandedAtExit` | src/framework/net/native_runtime.cpp:318-378 | for any shutdown, the jobs never run are exactly those pushed after the last look at the queue |
| `EventLoop.RunIffPushedInTime` | src/framework/net/native_runtime.cpp:349-378 | when shutdowns wait for tasks, a job is run if and only if it was pushed before the thread found both queues empty for the last time |
| `EventLoop.DrainedBeforeLeaving` | src/framework/net/native_runtime.cpp:349-364 | a shutdown that waits for tasks runs every job pushed before the thread starts to leave |
| `EventLoop.BuriedBeforeLeaving` | src/framework/net/native_runtime.cpp:349-378 | such a shutdown starts to leave only when every corpse handed over so far has been disposed of |
| `EventLoop.TurnShrinks` | src/framework/net/native_runtime.cpp:185-231 | every turn of the loop's thread lowers the bound, and a loop with work and resting posters is never stuck |
| `EventLoop.AcceptedYetStranded` | src/framework/net/native_runtime.cpp:133-160 | a run in which a caller found the loop alive and its job is never run |
| `EventLoop.NativeLoop.constructor` | src/framework/net/native_runtime.cpp:31-38 | an idle loop: empty queue, empty pipe |
| `EventLoop.NativeLoop.Post` | src/framework/net/native_runtime.cpp:50-60 | the push step and then the write step |
| `EventLoop.NativeLoop.DrainWakePipe` | src/framework/net/native_runtime.cpp:224-231 | the read loop is the read steps, and empties the pipe |
| `EventLoop.NativeLoop.DrainTasks` | src/framework/net/native_runtime.cpp:254-288 | one snapshot in an iteration; in a shutdown snapshot after snapshot, ended exactly when the queue is empty; in the steps of the state machine |
| `EventLoop.SnapshotExact` | src/framework/net/native_runtime.cpp:264-286 | one snapshot runs exactly the jobs queued at its start, in order, and what they post stays queued |
| `EventLoop.NativeLoop.RunSnapshot` | src/framework/net/native_runtime.cpp:264-286 | taking the queue and running the batch, in those steps |
| `Timers.WaitsInOnePlace` | src/framework/net/native_runtime.cpp:386-439 | over every history each wait is in exactly one of wheel, posted and dropped; dropped only without its timer; an undetached wait has its slot; the wheel is in due order |
| `Timers.ApplyInv` | src/framework/net/native_runtime.cpp:87-96 | every operation keeps that |
| `Timers.FiresInDueOrder` | src/framework/net/native_runtime.cpp:233-252 | firing posts exactly the due waits with timers, by deadline and then arming order, and leaves exactly the rest |
| `Timers.FiresOnTime` | src/framework/net/native_runtime.cpp:233-252 | over every history the fate of a wait follows from the operations alone: the first firing at or after now plus delay, as its timer was last set before it was armed, completes it as due, unless before that its timer was cancelled, set again or destroyed or the loop shut down |
| `Timers.NeverEarly` | src/framework/net/native_runtime.cpp:394-405 | a wait completes as due only in a firing at or after now plus delay |
| `Timers.ArmsExactly` | src/framework/net/native_runtime.cpp:407-415 | the operations alone say which waits are armed: those with a handler on a timer without a wait since it was created, cancelled or set |
| `Timers.PopAllExact` | src/framework/net/native_runtime.cpp:318-333 | removing slots posts exactly those with timers, in wheel order |
| `Timers.TimerLoop.TakeWait` | src/framework/net/native_runtime.cpp:428-439 | the slot is erased exactly when the wheel still has it |
| `Timers.TimerLoop.Create` | src/framework/net/native_runtime.cpp:382-384 | a timer without a wait |
| `Timers.TimerLoop.Place` | src/framework/net/native_runtime.cpp:87-91 | the place behind every slot due no later |
| `Timers.TimerLoop.PopHead` | src/framework/net/native_runtime.cpp:239-250 | the earliest slot leaves the wheel; its handler is posted unless its timer is gone |
| `Timers.TimerLoop.Cancel` | src/framework/net/native_runtime.cpp:417-426 | a cancelled completion is posted exactly for a wait still in the wheel |
| `Timers.TimerLoop.ExpiresAfter` | src/framework/net/native_runtime.cpp:394-405 | re-arming cancels the wait and sets the deadline |
| `Timers.TimerLoop.AsyncWait` | src/framework/net/native_runtime.cpp:407-415 | a wait is armed behind every slot due no later, unless one is pending or the handler is empty |
| `Timers.TimerLoop.Destroy` | src/framework/net/native_runtime.cpp:386-392 | a destroyed timer abandons its wait and leaves its slot |
| `Timers.TimerLoop.FireDue` | src/framework/net/native_runtime.cpp:233-252 | the firing loop in place |
| `Timers.TimerLoop.ShutdownDrain` | src/framework/net/native_runtime.cpp:318-333 | the shutdown loop cancels every wait in the wheel |
| `Stream.CompletesOnce` | src/framework/net/native_stream.cpp:60-178 | over every run, with any sockets, poller and callers: each operation is pending or completed, once; a completed write handed the socket exactly the reported prefix, all of it on success |
| `Stream.StepInv` | src/framework/net/native_stream.cpp:180-286 | every step keeps that |
| `Stream.ReportsExactly` | src/framework/net/native_stream.cpp:60-286 | over every run an operation has been completed with a report if and only if some step gave it: a read the bytes, end or error of its first decisive call; a write its size once all was taken or the failing call's error and what was taken before; a connect the outcome of its socket; a cancellation with what had been moved |
| `Stream.OpenExactly` | src/framework/net/native_stream.cpp:93-146 | over every run a stream is open exactly if it was made open or last connected, and not closed since |
| `Stream.ReceiveExact` | src/framework/net/native_stream.cpp:180-204 | the read loop reports its first call that neither was interrupted nor would block |
| `Stream.FlushExact` | src/framework/net/native_stream.cpp:206-232 | the send loop finishes or breaks exactly when the calls so far took everything or the next failed |
| `Stream.InterestFollowsNeed` | src/framework/net/native_stream.cpp:303-332 | with an accepting poller and one beginning per claim, what is registered is exactly what pending operations need, on exactly the stream's socket |
| `Stream.StepFits` | src/framework/net/native_stream.cpp:303-332 | every such step keeps that |
| `Stream.BeginFitsExactly` | src/framework/net/native_stream.cpp:93-126 | beginning a connect keeps that if and only if no connect is claimed or there is no socket yet |
| `Stream.SecondBeginning` | src/framework/net/native_client_transport.cpp:103-140 | a reachable run: a cancelled claim's late resolution begins a second socket, which is never registered while the first stays so |
| `Stream.StreamState.constructor` | src/framework/net/native_stream.cpp:49-58 | an idle stream, open exactly with a socket |
| `Stream.StreamState.Update` | src/framework/net/native_stream.cpp:303-332 | the registration after any poller answers |
| `Stream.StreamState.FinishRead` | src/framework/net/native_stream.cpp:250-256 | the read's completion is posted once and the interest follows |
| `Stream.StreamState.FinishWrite` | src/framework/net/native_stream.cpp:258-263 | the same for a write |
| `Stream.StreamState.CompletePendingConnect` | src/framework/net/native_stream.cpp:265-270 | the same for a connect |
| `Stream.StreamState.InitiateRead` | src/framework/net/native_stream.cpp:60-73 | pending, failed at once, or refused as a second one |
| `Stream.StreamState.InitiateWrite` | src/framework/net/native_stream.cpp:75-91 | the same for a write, from offset zero |
| `Stream.StreamState.Claim` | src/framework/net/native_client_transport.cpp:103-113 | a connect claims the stream, closing an open socket first |
| `Stream.StreamState.Begin` | src/framework/net/native_stream.cpp:93-126 | the four outcomes of beginning |
| `Stream.StreamState.CancelAll` | src/framework/net/native_stream.cpp:272-286 | every pending operation completes as cancelled, a write with the bytes moved |
| `Stream.StreamState.Close` | src/framework/net/native_stream.cpp:133-146 | closed, nothing pending, nothing registered |
| `Stream.StreamState.OnEvent` | src/framework/net/native_stream.cpp:148-158 | readiness in place: a connect outcome, or a read and then a write |
| `Stream.StreamState.ReadLoop` | src/framework/net/native_stream.cpp:180-204 | the read loop: available bytes, end of stream, error, or still armed |
| `Stream.StreamState.SendLoop` | src/framework/net/native_stream.cpp:206-226 | the send loop takes consecutive chunks of the data from the offset on |
| `Stream.StreamState.WriteLoop` | src/framework/net/native_stream.cpp:206-232 | the write completes exactly when all is sent or on an error |
| `Stream.StreamState.ConnectOutcome` | src/framework/net/native_stream.cpp:234-248 | the connect completes open, or closed with its error |
| `LineFolder.FoldingEndsExactly` | include/mail_system/back/algorithm/line_folder.h:80-105 | the folding loop ends if and only if no boundary byte is followed by 4094 continuation bytes and bytes 1 to 4095 of a longer line do not all continue |
| `LineFolder.NeverEnds` | include/mail_system/back/algorithm/line_folder.h:80-105 | 4096 continuation bytes: the loop does not end within any number of turns |
| `LineFolder.TurnAdvances` | include/mail_system/back/algorithm/line_folder.h:80-95 | outside those lines every turn of the loop moves on by at most its budget |
| `LineFolder.SegmentsExact` | include/mail_system/back/algorithm/line_folder.h:80-95 | the segments concatenate to the line and each respects its budget |
| `LineFolder.FoldedExact` | include/mail_system/back/algorithm/line_folder.h:80-95 | every stored line of a folded line is at most 2048 bytes and undoing the folding gives the line back |
| `LineFolder.SequencesWhole` | include/mail_system/back/algorithm/line_folder.h:98-105 | without a run of 2047 continuation bytes no UTF-8 sequence is cut |
| `LineFolder.FoldsLate` | include/mail_system/back/algorithm/line_folder.h:80-95 | a line is folded exactly when it is too long, and each time as late as a sequence boundary allows |
| `LineFolder.ShortStays` | include/mail_system/back/algorithm/line_folder.h:80-95 | a line of at most 2048 bytes is stored as it is |
| `LineFolder.TextStaysWhole` | include/mail_system/back/algorithm/line_folder.h:98-105 | in particular with at most three continuation bytes in a row, where folding also ends |
| `LineFolder.CharactersStayWhole` | include/mail_system/back/algorithm/line_folder.h:98-105 | whatever UTF-8 text (section 3 of RFC 3629) a line holds, folding it ends and every cut falls between two characters |
| `LineFolder.ChunkingIrrelevant` | include/mail_system/back/algorithm/line_folder.h:38-67 | for every cutting of the input the outputs with the final one are those of the whole input |
| `LineFolder.ConsumeMore` | include/mail_system/back/algorithm/line_folder.h:38-54 | consuming part of the input and then the rest behind what was kept is consuming all of it |
| `LineFolder.WholeBounded` | include/mail_system/back/algorithm/line_folder.h:38-95 | no line of the stored text exceeds 2048 bytes |
| `LineFolder.StuffingUndone` | include/mail_system/back/algorithm/line_folder.h:38-75 | for any lines stuffed by the sender as section 4.5.2 of RFC 5321 says and any last line without an end, what is stored is the original lines, each folded |
| `LineFolder.StoredOriginal` | include/mail_system/back/algorithm/line_folder.h:69-75 | a line is stored as it was before stuffing, whether or not it needed any |
| `LineFolder.Folder.Feed` | include/mail_system/back/algorithm/line_folder.h:38-54 | complete lines go out unstuffed and folded, the half line stays; ended, when watched long enough, exactly if every line's folding ends |
| `LineFolder.Folder.Flush` | include/mail_system/back/algorithm/line_folder.h:59-67 | the half line goes out and nothing stays, under the same condition |
| `LineFolder.Folder.AppendFolded` | include/mail_system/back/algorithm/line_folder.h:80-95 | the loop watched for any number of turns: exactly whether it has ended by then, and then with the segments joined |
| `LineFolder.Folder.Utf8Boundary` | include/mail_system/back/algorithm/line_folder.h:98-105 | the nearest byte at or before that does not continue a sequence, or the start of the line |

## Left out

- Signing, verifying, sealing and opening: abstract functions. Agreement and revocation assume that verification accepts only what the key's holder signed, for agreement except under corrupt keys; `EndToEnd` assumes that opening inverts sealing and that a tag adds 16 bytes.
- The link's heartbeat, connection generations, reconnect timing and `start`: they add timing, not protocol states that the theorems depend on. A generation is one run of `LinkStream`.
- The nonce windows are values inside the source's table, not shared pointers, so aliasing between a window and the table is not modelled.
- Handlers that are not set: what routers and links hand over is recorded, not who listens.
- A router destroyed before its link answers: the completion still runs, but there is no counter left to account for.
- `poll_once`, exceptions thrown by tasks, `next_wait_timeout` and the poller backends: the loop is its own thread, a task that throws has run, and waits end at any time.
- LinkStream.FrameReader.Disconnect: only the receive buffer's part of a disconnect; the rest is `Link.NodeLink.TearDown`.
- The methods of `LineFolder.Folder` and `EventLoop.NativeLoop.DrainTasks` take the number of turns for which a loop that may not end is watched. Their contracts hold for every such number; memory running out is not modelled.
- Timers.WaitsInOnePlace: a shutdown cancels the waits in the wheel at that moment; waits armed by tasks that run inside the shutdown drain are later operations.
- Stream: a `send` of some bytes is taken to move at least one, so the branch that reads a stale error number after a zero-byte send is not modelled. `dispose` is the last operation on a stream.
- Host resolution, socket options, endpoints and TLS: foreign calls; a connect starts at its claim.
- HTTP, HPACK, sessions, storage providers, the finite-state-machine engine, configuration, logging, the Asio adapters, the frontend and the tools: thin wrappers or code behind unseen libraries, with only easy claims.
