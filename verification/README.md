# Verified model of the game-server runtime and its codecs

A C++ game server with C# tools, modelled and proved in Dafny 4.11. `dafny verify dfyconfig.toml` checks the whole project.

The model covers the parts whose correctness no single function shows:

- **Session runtime.** `TcpSession` (bounded send queue, its single writer, the framing parser), `SessionRegistry`
  (slot reuse with serials), `ActorSystem` (sharded per-actor FIFO), `Lifecycle` (server, sessions, dispatch and
  handler composed), `Dispatch` (what the events of a run owe the handler, and its delivery), `Reconnect` (client
  reconnect loop and backoff), `LineHost` (lock-free counters), `Admission` (session limit and refused sessions).
- **SHA-256 and the password check.** `Sha256`, `Sha256Bits` (the word functions bit by bit), `Sha256Vector` (the
  digest of "abc", round by round), `PasswordHex`.
- **Walkability.** `Walkability`: quadtree descent and barycentric test over the reals.
- **Codecs.** `Packet` (4-byte header), `Wire` (protobuf varints, fields, merge loop), `CommonMessages`,
  `LoginMessages`, `AuthMessages`, `WorldSelectMessages` (the generated classes), `ZoneRecords`, `ZoneData`,
  `ZoneReaders` (binary zone file, both readers), `ZoneLayout` (the file byte by byte), `Decimals`, `ZoneCsv`
  (CSV pack), `Portals` (in-place resolution).
- `Bytes` holds machine integers, little-endian fields and concatenation.

How concurrency is modelled: each component is a `State` with a `Step` function over its atomic actions (a strand
step, a lock region, one atomic operation, one resumption of a coroutine). `Run` folds any list of events, so a lemma
over all event lists speaks about every interleaving. The history that the code does not store (what was accepted,
written, posted, issued) is in fields named for it. Beside each step function stands a class with the program's own
fields and loops, whose methods are proved to take exactly that step.

Numbers are unbounded, and each 16, 32 or 64-bit wrap, cast or truncation of the source is written out. I/O, clocks and
scheduling are events or parameters. The protobuf runtime is modelled from the "Base 128 Varints" and "Message
Structure" sections of the Protocol Buffers Encoding specification, SHA-256 against FIPS 180-4.

## Where the code falls short of the obvious claim

Each of these is stated as an exact condition or with a concrete counterexample:

- A packet is framed correctly only up to 65531 body bytes; the header size then wraps (`Packet.SendAsyncIsFramed`).
- Session keys stay unique only while a slot has started at most 2^32 sessions; serial 0 makes a session
  unreachable; after 2^32 rounds of one slot the first key reaches the newest session (`SessionRegistry.KeysAreUnique`,
  `RunningIsReachable`, `KeyReachesItsSession`, `FirstKeyReachesStranger`).
- The mix that picks an actor's shard is not one-to-one: it tells ids apart below 2^55 and no further
  (`ActorSystem.MixSeparatesBelow`).
- After a write failure the queue stays non-empty and nothing is ever sent again (`TcpSession.FailureIsFinal`).
- The session limit is kept by every run with at most k racing opens exactly when k is 1
  (`LineHost.LimitNeedsSerialOpens`). The close of a refused session lowers the counter: it counts the accepted live
  sessions all along exactly when no such close ever finds it above zero (`Admission.CounterIsExact`), and otherwise
  the limit can be passed without bound (`Admission.RefusalsDefeatLimit`).
- The 32-bit backoff is the capped doubling only for some settings (`Reconnect.BackoffIsExact`), and without
  auto-reconnect a later `start` does nothing after a loss (`Reconnect.LossIsFinalWithoutAuto`).
- The zone file's counts are cast to 32 bits, and the C# reader's `int` loop counter wraps from 2^31 on
  (`ZoneData.BinaryRoundTrip`, `ZoneData.ReadersAgree`).
- The quadtree descent ends exactly when it meets no node twice, which shows within as many turns as there are nodes
  (`Walkability.DescentEndsExactly`). The loader does not rule out arrays on which it never ends
  (`Walkability.CycleTrapsDescent`); a cycle out of the descent's reach does no harm (`Walkability.CycleOutOfReach`).
- An encoded `Endpoint` acts on every other one as a merge of what it decodes to exactly when it spells out no default value
  (`CommonMessages.StreamIsMergeExactly`).

## Model

| member | source | states |
|---|---|---|
| TcpSession.BuildFrame | src/net/tcp/tcp_session.h:69-89 | a queued packet announces its own length and carries the given type and body; ill-sized ones are not queued, exactly |
| TcpSession.RunInv | src/net/tcp/tcp_session.h:163-246 | in every run: at most one write loop, alive iff the queue is non-empty and no write has failed; byte and message counts exact and within the limits; accepted = written + queued; wire = written frames + part of the front one; lossy offered = accepted + counted drops |
| TcpSession.SendOutcome | src/net/tcp/tcp_session.h:163-217 | a send is queued, and a writer spawned on an empty queue, iff it is well-sized and fits both limits; otherwise a reliable one closes the socket and a lossy one is counted as dropped with its bytes; wire, written frames and sent bytes stay |
| TcpSession.FailureIsFinal | src/net/tcp/tcp_session.h:175-188 | once a write has failed in a run, whatever follows puts no further byte on the wire, though messages are still queued |
| TcpSession.ClosedIsFinal | src/net/tcp/tcp_session.h:91-98 | in every run, whatever closed the socket (a close, a reliable overflow, a failed write), no continuation opens it again or adds a byte to the wire |
| TcpSession.CloseIsFinal | src/net/tcp/tcp_session.h:91-98 | after any run and a close the socket is not open, and every continuation leaves the wire as it was at the close |
| TcpSession.EverythingCanBeSent | src/net/tcp/tcp_session.h:219-246 | from every run whose socket is open some further strand steps put every queued message on the wire, and the wire is then the accepted messages end to end |
| TcpSession.CanAcceptSendIsExact | src/net/tcp/tcp_session.h:125-132 | between strand steps the cross-thread check answers exactly whether a lossy send would be queued |
| TcpSession.ReadLoop | src/net/tcp/tcp_session.h:248-284 | the loop delivers what the recursive reading of the bytes delivers and ends for the same reason |
| TcpSession.ReadPrefix | src/net/tcp/tcp_session.h:248-284 | on any prefix of well-formed frames the reader hands over exactly the complete ones, in order, up to a refusal, and raises no size error |
| TcpSession.BadSizeEndsReading | src/net/tcp/tcp_session.h:259-265 | a header whose size is below the header or above the limit ends the reading there with the size error, after the packets before it |
| TcpSession.Delivery | src/net/tcp/tcp_session.h:163-284 | end to end: for every schedule and every number of bytes received, the peer has got exactly the accepted messages that fit in them, in order, without a size error |
| TcpSession.ReceiverLimit | src/net/tcp/tcp_session.h:259-265 | a run of frames is read to its end iff the receiver's limit admits each of them |
| TcpSession.TcpSession.Enqueue | src/net/tcp/tcp_session.h:163-217 | both enqueue functions take the send step of the state machine |
| TcpSession.TcpSession.AfterWrite | src/net/tcp/tcp_session.h:221-231 | the code after a completed write pops the front and goes on or ends as the state machine does |
| TcpSession.TcpSession.WriteException | src/net/tcp/tcp_session.h:233-244 | the catch blocks close the socket and leave the queue as it is |
| SessionRegistry.Run | src/net/tcp/tcp_server.h:171-239 | every run keeps: slots 1.. are free once or live, slot 0 never used, running + free = size - 1 = most ever running, serials count the slot's sessions |
| SessionRegistry.Partition | src/net/tcp/tcp_server.h:187-229 | a slot is free and has no running session, or has exactly one |
| SessionRegistry.AcceptEffect | src/net/tcp/tcp_server.h:178-185 | an accept gives an empty slot its next session and touches no other slot |
| SessionRegistry.FinishEffect | src/net/tcp/tcp_server.h:191-209 | a finished session empties its own slot and no other |
| SessionRegistry.LastFreedIsFirstTaken | src/net/tcp/tcp_server.h:191-229 | after any running sessions have finished in some order, the next accepts take their slots in the reverse order |
| SessionRegistry.GrowsOnlyWhenFull | src/net/tcp/tcp_server.h:217-229 | an accept adds a slot, at the end, iff every slot has its session running |
| SessionRegistry.KeysAreUnique | src/net/tcp/tcp_server.h:181-184 | no key names two sessions iff no slot has started more than 2^32 |
| SessionRegistry.RunningIsReachable | src/net/tcp/tcp_server.h:230-239 | a running session answers to its key iff its serial is not the reserved 0 |
| SessionRegistry.KeyReachesItsSession | src/net/tcp/tcp_server.h:76-103 | the key of an issued session reaches another one iff a running session of its slot has the same serial, not 0; up to 2^32 sessions per slot it reaches its own session or nobody |
| SessionRegistry.FirstKeyReachesStranger | src/net/tcp/tcp_server.h:182 | a run of n sessions in slot 1 and one more: the first session's key reaches the newest iff n is a multiple of 2^32 |
| SessionRegistry.TcpServer.AllocSlot | src/net/tcp/tcp_server.h:217-229 | last freed slot, else a new one, as the specification allocates |
| SessionRegistry.TcpServer.AcceptOne | src/net/tcp/tcp_server.h:178-185 | the locked region performs one accept, keeps the invariant and returns a session never issued before |
| SessionRegistry.TcpServer.FinishSession | src/net/tcp/tcp_server.h:191-209 | the cleanup performs one finish and keeps the invariant |
| SessionRegistry.TcpServer.TryGet | src/net/tcp/tcp_server.h:230-239 | the lookup returns the live session with that key, if any |
| ActorSystem.RunInv | src/net/actor/actor_system.cpp:20-43 | every interleaving keeps on every shard: posted = executed + running + batch + queue, only ids routed there, actor map = what the executed messages imply |
| ActorSystem.ActorFifo | src/net/actor/actor_system.cpp:86-108 | per actor: finished, running and waiting messages are together exactly the posted ones, in post order |
| ActorSystem.OnlyItsShard | src/net/actor/actor_system.cpp:12-18 | no other shard ever queues, runs or stores anything for an actor |
| ActorSystem.MixBits | src/net/actor/actor_system.cpp:12-18 | bit k of the mixed id is the parity of the id's bits k, k + 33 and k - 11, those that exist |
| ActorSystem.MixSeparatesBelow | src/net/actor/actor_system.cpp:12-18 | the mix tells all ids below a bound apart iff the bound is at most 2^55 |
| ActorSystem.InstancesPersist | src/net/actor/actor_system.cpp:110-134 | each actor call saw the actor's current instance, or the one its factory just made, or none if the factory failed |
| ActorSystem.SharedInstance | src/net/actor/actor_system.cpp:126-133 | in every run and on every shard two calls of an actor with no erasure between them share one instance |
| ActorSystem.PostedToShard | src/net/actor/actor_system.cpp:102-106 | an actor's shard receives its messages in the order of the posts |
| ActorSystem.WorkerDrains | src/net/actor/actor_system.cpp:20-43 | from any state steps of one worker alone empty its shard: queue, batch and running message |
| ActorSystem.ShardWorker.Post | src/net/actor/actor_system.cpp:103-106 | a post appends to the queue |
| ActorSystem.ShardWorker.TakeBatch | src/net/actor/actor_system.cpp:32 | the whole queue becomes the batch |
| ActorSystem.ShardWorker.RunNext | src/net/actor/actor_system.cpp:35-41 | one message runs with the map effects of call, actor call or erasure |
| ActorSystem.ShardWorker.Drain | src/net/actor/actor_system.cpp:23-42 | one pass runs all that was queued, in order, and nothing else |
| Lifecycle.NetworkHandler.OnConnected | src/app/runtime/networkex_base.h:260-268 | serial and endpoint of the index are set, and the hook is called |
| Lifecycle.NetworkHandler.OnPacket | src/app/runtime/networkex_base.h:283-290 | the serial of the index is set, and the hook is called |
| Lifecycle.NetworkHandler.OnDisconnected | src/app/runtime/networkex_base.h:270-281 | the close hook is called iff the serial is the latest, and only then are both entries erased |
| Lifecycle.NetworkHandler.GetLatestSerial | src/app/runtime/networkex_base.h:180-185 | the stored serial, 0 when there is none |
| Lifecycle.IndexLifecycle | src/app/runtime/networkex_base.h:260-290 | over server, sessions, shards and handler, in every run below 2^32 sessions per slot: the hooks called for an index are exactly the upcalls run for it, in order; they are blocks Connected(s) Packet(s)* Disconnected(s) with strictly increasing s; the stored serial and endpoint are those of the open block, and gone after it |
| Lifecycle.LatestAtUpcall | src/services/account/handler/account_login_handler.cpp:151-154 | in every such run, while a packet or a disconnect of session s runs for an index, the latest serial of that index is s |
| Lifecycle.StepInStep | src/net/tcp/tcp_session.h:51-66 | every step keeps the upcalls posted for an index exactly where its slot's session stands |
| Lifecycle.StepHandlerInStep | src/services/channel/runtime/channel_runtime.cpp:187 | every worker step keeps the handler's entries in step with the upcalls run |
| Dispatch.GivenIsOwed | src/app/runtime/networkex_base.h:219-258 | in every run what has been posted for an index is exactly the connects, packets and disconnects in the events whose session stood in the right stage, each with its serial and content, in event order |
| Dispatch.OwedIsServed | src/net/tcp/tcp_session.h:51-66 | in every such run, once the index's shard has nothing waiting or running, the hooks called for the index are exactly those owed by the events |
| Dispatch.EveryPostCanBeServed | src/net/actor/actor_system.cpp:20-43 | from every run some further steps of one worker bring every upcall owed to an index to its hook |
| Packet.HeaderBytes | tools/DummyClientWinForms/Network/PacketHeader.cs:12-27 | writing and parsing a header are inverse |
| Packet.HeaderLayout | tools/DummyClientWinForms/Network/PacketHeader.cs:12-27 | size first, then type, each low byte first |
| Packet.SendAsyncIsFramed | tools/DummyClientWinForms/Network/TcpClientEx.cs:57-72 | a sent packet is received as sent with nothing left over iff its body has at most 65531 bytes |
| Packet.ReadExact | tools/DummyClientWinForms/Network/TcpClientEx.cs:128-137 | however the stream cuts its bytes, exactly the next `size` bytes arrive, or the stream was shorter |
| Reconnect.OneThingAtATime | src/net/tcp/tcp_client.cpp:66-183 | at most one of connect attempt, session and wait in every run; exactly one once started with auto-reconnect; a session is recorded iff one is running |
| Reconnect.SessionsAreSuccesses | src/net/tcp/tcp_client.cpp:110-183 | counted from the events: one session for each connect that ended well, with the serials from 1 on; the latest stands exactly while it is served; losses are the failed connects and ended sessions since then and, with auto-reconnect, fix the backoff |
| Reconnect.ConnectOutcome | src/net/tcp/tcp_client.cpp:124-183 | a connect that ends well leaves a new session, whose serial is new and last, and the initial backoff; one that fails leaves no session, no new serial, and a wait iff auto-reconnect is on |
| Reconnect.LossIsFinalWithoutAuto | src/net/tcp/tcp_client.cpp:12-32 | without auto-reconnect nothing happens any more after the first loss, whatever is called |
| Reconnect.SerialsOnlyGrow | src/net/tcp/tcp_client.cpp:128-138 | the list of serials used is only ever extended, and the current serial is its last |
| Reconnect.SerialsIncrease | src/net/tcp/tcp_client.cpp:131 | in every run the serials of its sessions strictly increase iff there are fewer than 2^32 of them |
| Reconnect.BackoffIsExact | src/net/tcp/tcp_client.cpp:55-64 | the backoff after every k >= 1 losses is min(delay * 2^k, max) iff the settings satisfy a stated condition |
| Reconnect.PendingWaitBacksOff | src/net/tcp/tcp_client.cpp:66-108 | in every run with such settings a pending wait uses that value for the losses so far |
| Reconnect.TcpClient.Begin | src/net/tcp/tcp_client.cpp:12-32 | start takes its step and keeps the invariant |
| Reconnect.TcpClient.GrowBackoff | src/net/tcp/tcp_client.cpp:60-64 | doubling wraps before the cap |
| Reconnect.TcpClient.ScheduleReconnect | src/net/tcp/tcp_client.cpp:66-80 | schedules one wait unless one is pending or reconnecting is off |
| Reconnect.TcpClient.ConnectEnds | src/net/tcp/tcp_client.cpp:110-183 | a finished connect takes its step, connected or not, and keeps the invariant |
| Reconnect.TcpClient.SessionEnds | src/net/tcp/tcp_client.cpp:147-165 | an ended session takes its step and keeps the invariant |
| Reconnect.TcpClient.WaitEnds | src/net/tcp/tcp_client.cpp:82-108 | a finished wait takes its step and keeps the invariant |
| LineHost.CountersAreSafe | src/server_common/runtime/line_host_stats.h:32-54 | for any threads, interleaving and spurious failures: current = opens - effective closes >= 0, peak never above the largest current, equal to it when no open is in progress |
| LineHost.CounterFollowsEvents | src/server_common/runtime/line_host_stats.h:32-54 | counted from the events: current = opens that reached their increment, less the closes begun that neither read a zero nor are still in their loop |
| LineHost.BalancedEndsAtZero | src/server_common/runtime/line_host_stats.h:32-54 | with every thread idle, as many closes as opens and none that read a zero, the counter is back at 0 |
| LineHost.OpenAlone | src/server_common/runtime/line_host_stats.h:32-43 | an admitted open whose thread runs undisturbed adds one and raises the peak to it in four steps |
| LineHost.CloseEnds | src/server_common/runtime/line_host_stats.h:45-54 | wherever a close stands, two undisturbed steps end it: it takes one off unless it has read or finds zero |
| LineHost.MaxEverIsLargest | src/server_common/runtime/line_host_stats.h:32-43 | the recorded maximum bounds the counter at every point of the run and is reached at one |
| LineHost.LimitHolds | src/server_common/runtime/line_host.h:162-199 | with at most k opens between check and increment the counter stays at or below limit - 1 + k; serialised opens keep the limit |
| LineHost.TwoOpensExceedLimit | src/server_common/runtime/line_host.h:162-199 | from one below any limit two racing opens end one above it |
| LineHost.LimitNeedsSerialOpens | src/server_common/runtime/line_host.h:162-199 | every run with at most k opens between check and increment keeps the limit iff k is 1 |
| LineHost.BeginOutcome | src/server_common/runtime/line_host.h:162-197 | an open passes iff there is room under the limit and the policy is willing; otherwise exactly one refusal is counted, by limit before policy |
| LineHost.LineHostStats.OpenBegins | src/server_common/runtime/line_host.h:162-197 | limit, then policy, then admission, as the state machine decides |
| LineHost.LineHostStats.AdvanceThread | src/server_common/runtime/line_host_stats.h:32-54 | each atomic operation of the two loops takes its step |
| Admission.CounterLag | src/server_common/handler/service_line_handler_base.h:27-50 | accepted live sessions = counter + (refused closes counted) - (accepted closes at zero), never less than the counter |
| Admission.StepOutcome | src/server_common/handler/service_line_handler_base.h:27-50 | an accept is accepted iff below the limit and the policy is willing, adding one; every close removes its session and takes one off if there is one |
| Admission.CounterIsExact | src/server_common/runtime/line_host_stats.h:45-54 | the counter is the number of accepted live sessions throughout a run iff no close of a refused session found it above zero |
| Admission.RefusalsDefeatLimit | src/server_common/handler/service_line_handler_base.h:30-46 | for every limit and n >= limit, with a policy that refuses nobody, a run ends with the counter at the limit and n accepted live sessions |
| Admission.LineHost.AcceptClientCheck | src/server_common/handler/service_line_handler_base.h:27-36 | the accept upcall takes its step and reports acceptance |
| Admission.LineHost.CloseClientCheck | src/server_common/handler/service_line_handler_base.h:38-50 | the close upcall runs the counter down for every session, refused ones too |
| Sha256.ConstantsAreCubeRoots | src/core/crypto/sha256.cpp:10-27 | the table is the cube-root fractions of the first 64 primes (section 4.2.2 of FIPS 180-4) |
| Sha256.InitialIsSquareRoots | src/core/crypto/sha256.cpp:66-73 | the initial values are the square-root fractions of the first 8 primes (section 5.3.3) |
| Sha256.PadLength | src/core/crypto/sha256.cpp:75-85 | the padded length is the least multiple of 64 that holds the message and 9 bytes |
| Sha256.PaddingIsInjective | src/core/crypto/sha256.cpp:75-85 | different messages below 2^61 bytes are padded differently |
| Sha256.RoundsAreBijective | src/core/crypto/sha256.cpp:112-124 | for any schedule the rounds have a two-sided inverse on the eight words |
| Sha256.BlocksAreChained | src/core/crypto/sha256.cpp:87-134 | the hash value is the fold of the compression over the blocks, first to last, from the fixed value |
| Sha256Bits.ChBits | src/core/crypto/sha256.cpp:34-37 | each bit of Ch is y's where x's is set and z's where it is not |
| Sha256Bits.MajBits | src/core/crypto/sha256.cpp:39-42 | each bit of Maj is the majority of the three |
| Sha256Bits.RotRBits | src/core/crypto/sha256.cpp:29-32 | for every amount n, bit k of the rotated word is bit k + n counted round the word |
| Sha256Bits.BigSigma0Bits | src/core/crypto/sha256.cpp:44-47 | each bit is the parity of the bits 2, 13 and 22 places up, round the word |
| Sha256Bits.BigSigma1Bits | src/core/crypto/sha256.cpp:49-52 | each bit is the parity of the bits 6, 11 and 25 places up, round the word |
| Sha256Bits.SmallSigma0Bits | src/core/crypto/sha256.cpp:54-57 | each bit is the parity of the bits 7 and 18 places up, round the word, and the bit 3 places up if there is one |
| Sha256Bits.SmallSigma1Bits | src/core/crypto/sha256.cpp:59-62 | each bit is the parity of the bits 17 and 19 places up, round the word, and the bit 10 places up if there is one |
| Sha256Vector.AbcDigest | src/core/crypto/sha256.cpp:64-145 | the digest of "abc" is the one that FIPS 180-4 gives as its example |
| Sha256.PadMessage | src/core/crypto/sha256.cpp:75-85 | the two push loops build the padded message |
| Sha256.ExpandBlock | src/core/crypto/sha256.cpp:88-101 | the array is filled with the recursive message schedule |
| Sha256.RunRounds | src/core/crypto/sha256.cpp:103-124 | the eight-variable loop computes the recursive rounds |
| Sha256.Digest | src/core/crypto/sha256.cpp:136-144 | the output loop lays out the eight words big-endian |
| Sha256.Sha256Bytes | src/core/crypto/sha256.cpp:64-145 | the in-place function equals the recursive definition of sections 5 and 6.2.2 for every input |
| PasswordHex.DecodeSucceeds | src/services/account/db/account_auth_db_repository.cpp:148-174 | decoding succeeds iff the length is even and every character is a hex digit |
| PasswordHex.DecodeEncode | src/core/crypto/sha256.cpp:164-176 | decoding undoes encoding |
| PasswordHex.EncodedAt | src/core/crypto/sha256.cpp:164-176 | byte i becomes characters 2i and 2i + 1, the high half first, in upper-case digits |
| PasswordHex.EncodeDecode | src/services/account/db/account_auth_db_repository.cpp:148-174 | encoding undoes decoding up to upper case |
| PasswordHex.TextMatchIsByteMatch | src/services/account/db/account_auth_db_repository.cpp:194-196 | comparing upper-cased text is comparing the bytes it stands for |
| PasswordHex.VerifyComparesDigests | src/services/account/db/account_auth_db_repository.cpp:216-245 | a password passes iff the stored hash decodes to the digest of salt and password in either order |
| PasswordHex.VerifyIgnoresCase | src/services/account/db/account_auth_db_repository.cpp:176-182 | the verdict is unchanged under any case change of hash and salt |
| PasswordHex.HexToBytes | src/services/account/db/account_auth_db_repository.cpp:148-174 | the loop decodes, or reports failure |
| PasswordHex.ToUpperHex | src/core/crypto/sha256.cpp:164-176 | the table loop encodes |
| PasswordHex.MatchSha256 | src/services/account/db/account_auth_db_repository.cpp:184-212 | digest text against upper-cased expectation |
| PasswordHex.VerifyPasswordHex | src/services/account/db/account_auth_db_repository.cpp:216-245 | the method decides the specified verdict |
| Walkability.ContainsIsExact | tools/DummyClientWinForms/Services/WmGeometryLoader.cs:262-285 | the test holds iff the squared doubled area is at least 0.000001 and the point is A + s(B-A) + r(C-A) with s, r >= 0 and s + r <= 1 |
| Walkability.Lagrange | tools/DummyClientWinForms/Services/WmGeometryLoader.cs:275 | the denominator is the squared cross product |
| Walkability.BoxIsHull | tools/DummyClientWinForms/Services/WmGeometryLoader.cs:308-311 | a box holds exactly the weighted means of its corners, edges included, and nothing when its ends are exchanged |
| Walkability.FirstMatchWins | tools/DummyClientWinForms/Services/WmGeometryLoader.cs:195-209 | the child taken is the first in list order that is a node and holds the point; none iff none does |
| Walkability.WalkableIsSound | tools/DummyClientWinForms/Services/WmGeometryLoader.cs:175-232 | walkable implies in the root box and in some triangle, for any node array |
| Walkability.WalkableAgreesWithScan | tools/DummyClientWinForms/Services/WmGeometryLoader.cs:175-232 | over a tree whose children cover and whose leaves list, at every point whose descent ends, walkable iff in the root box and in some triangle |
| Walkability.DescentEndsExactly | tools/DummyClientWinForms/Services/WmGeometryLoader.cs:187-217 | for any array and point the descent reaches a leaf or a miss iff it does so within as many turns as there are nodes, and iff it meets no node twice |
| Walkability.AcyclicDescentsEnd | tools/DummyClientWinForms/Services/WmGeometryLoader.cs:187-217 | with ranks that fall from parent to child every descent ends |
| Walkability.CycleTrapsDescent | tools/DummyClientWinForms/Services/WmGeometryLoader.cs:85-115 | over a root that is its own child no point of the box has a descent that ends |
| Walkability.CycleOutOfReach | tools/DummyClientWinForms/Services/WmGeometryLoader.cs:187-217 | an array with a cycle on which every descent ends |
| Walkability.MapGeometryData.IsWalkable | tools/DummyClientWinForms/Services/WmGeometryLoader.cs:175-232 | wherever the code ends at all, its loops decide the specified predicate |
| Walkability.MapGeometryData.FindChild | tools/DummyClientWinForms/Services/WmGeometryLoader.cs:196-209 | the first child in range whose box holds the point, or -1 |
| Walkability.MapGeometryData.ScanLeaf | tools/DummyClientWinForms/Services/WmGeometryLoader.cs:218-231 | true iff a listed triangle in range contains the point |
| Wire.VarintSizeIsLength | tools/proto_generated/csharp/Common.cs:263-279 | the size thresholds equal the length of the varint |
| Wire.VarintIsMinimal | tools/proto_generated/csharp/Common.cs:221-232 | the written bytes spell the value in base 128, low digits first, all but the last marked by the high bit, in the fewest bytes |
| Wire.VarintIsSpelled | tools/proto_generated/csharp/Common.cs:300-331 | a varint ends at the first byte below 128, must do so within the limit, and is then the number its digits spell, leading zeros included |
| Wire.FieldBytes | tools/proto_generated/csharp/Common.cs:217-237 | a field is its tag byte, then the varint, or the length and the body |
| Wire.FieldRoundTrip | tools/proto_generated/csharp/Common.cs:221-232 | a written field is read back, tag first, leaving the rest |
| Wire.EncodedMerges | tools/proto_generated/csharp/Common.cs:300-331 | merging an encoding applies its fields in order and then reads on, for every message type |
| Wire.ConcatenationMerges | tools/proto_generated/csharp/Common.cs:300-331 | any bytes that decode can be continued by any others: decoding the concatenation is decoding the second part into the first's result |
| Wire.TwinsAgree | tools/proto_generated/csharp/InternalLoginAccount.cs:305-342 | two message types that agree case by case read every byte string alike |
| Wire.EnumRoundTrip | tools/proto_generated/csharp/Common.cs:615-618 | a signed enum survives sign extension and truncation |
| Wire.EnumOnWire | tools/proto_generated/csharp/Common.cs:615-618 | an enum is written as its 64-bit two's complement, ten bytes when negative, and read modulo 2^32 |
| Wire.TrueOnWire | tools/proto_generated/csharp/Common.cs:617-620 | a written true is the tag and the byte 1 |
| CommonMessages.EndpointRoundTrip | tools/proto_generated/csharp/Common.cs:217-331 | decoding an encoding gives the message back |
| CommonMessages.EndpointLayout | src/proto/schema/common.proto:32-36 | a full message is its fields in schema order, each under its number and type |
| CommonMessages.EndpointConcatenationIsMerge | tools/proto_generated/csharp/Common.cs:282-331 | bytes that decode to a, followed by an encoding of b, decode to b merged into a |
| CommonMessages.StreamIsMergeExactly | tools/proto_generated/csharp/Common.cs:282-331 | bytes that decode to b act on every message as the merge of b iff each tag in them has a non-default field in b |
| CommonMessages.EndpointMessage.WriteTo | tools/proto_generated/csharp/Common.cs:217-237 | appends the encoding of the object's fields |
| CommonMessages.EndpointMessage.CalculateSize | tools/proto_generated/csharp/Common.cs:263-279 | the length of that encoding |
| CommonMessages.EndpointMessage.MergeFrom | tools/proto_generated/csharp/Common.cs:282-296 | the object becomes the merge of both values, also with itself |
| CommonMessages.EndpointMessage.MergeFromStream | tools/proto_generated/csharp/Common.cs:300-331 | the loop ends as the recursive reading does, with that message in its fields |
| CommonMessages.WorldRoundTrip | tools/proto_generated/csharp/Common.cs:593-821 | decoding an encoding gives the message back, enums and nested endpoints included |
| CommonMessages.WorldLayout | src/proto/schema/common.proto:38-49 | a full message is its nine fields in schema order, each under its number and type, then one field 10 for each endpoint |
| CommonMessages.WorldConcatenationIsMerge | tools/proto_generated/csharp/Common.cs:727-821 | as for Endpoint; endpoints are appended |
| CommonMessages.WriteEndpoints | tools/proto_generated/csharp/Common.cs:633 | tag, size and message for each entry |
| CommonMessages.SizeOfEndpoints | tools/proto_generated/csharp/Common.cs:718 | the summed sizes equal the bytes written |
| CommonMessages.WorldEntryMessage.WriteTo | tools/proto_generated/csharp/Common.cs:593-638 | appends the encoding of the ten fields |
| CommonMessages.WorldEntryMessage.CalculateSize | tools/proto_generated/csharp/Common.cs:689-723 | the length of that encoding |
| CommonMessages.WorldEntryMessage.MergeFrom | tools/proto_generated/csharp/Common.cs:727-760 | the object becomes the merge of both values |
| CommonMessages.WorldEntryMessage.MergeFromStream | tools/proto_generated/csharp/Common.cs:764-821 | the loop ends as the recursive reading does, with that message in its fields |
| LoginMessages.LoginRoundTrip | tools/proto_generated/csharp/ClientLogin.cs:500-638 | decoding an encoding gives the message back, nested entries included |
| LoginMessages.LoginLayout | src/proto/schema/client_login.proto:12-18 | a full message is its fields in schema order, with one field 4 for each entry |
| LoginMessages.LoginConcatenationIsMerge | tools/proto_generated/csharp/ClientLogin.cs:579-638 | concatenated bytes decode to the merge; entries are appended |
| LoginMessages.LoginResultMessage.WriteTo | tools/proto_generated/csharp/ClientLogin.cs:500-525 | appends the encoding, entries between the session and the failure reason |
| LoginMessages.LoginResultMessage.CalculateSize | tools/proto_generated/csharp/ClientLogin.cs:556-575 | the length of that encoding |
| LoginMessages.LoginResultMessage.MergeFrom | tools/proto_generated/csharp/ClientLogin.cs:579-597 | the object becomes the merge of both values |
| LoginMessages.LoginResultMessage.MergeFromStream | tools/proto_generated/csharp/ClientLogin.cs:601-638 | the loop ends as the recursive reading does, with that message in its fields |
| WorldSelectMessages.SelectRoundTrip | tools/proto_generated/csharp/ClientLogin.cs:1567-1721 | decoding an encoding gives the message back, with or without its entry |
| WorldSelectMessages.SelectLayout | src/proto/schema/client_login.proto:36-42 | a full message is its fields in schema order, each under its number and type |
| WorldSelectMessages.SelectConcatenationIsMerge | tools/proto_generated/csharp/ClientLogin.cs:1654-1721 | concatenated bytes decode to the merge; a second entry is merged into the first |
| WorldSelectMessages.WorldSelectMessage.WriteTo | tools/proto_generated/csharp/ClientLogin.cs:1567-1595 | appends the encoding |
| WorldSelectMessages.WorldSelectMessage.CalculateSize | tools/proto_generated/csharp/ClientLogin.cs:1629-1650 | the length of that encoding |
| WorldSelectMessages.WorldSelectMessage.MergeFrom | tools/proto_generated/csharp/ClientLogin.cs:1654-1677 | the object becomes the merge of both values, a missing entry created first |
| WorldSelectMessages.WorldSelectMessage.MergeFromStream | tools/proto_generated/csharp/ClientLogin.cs:1681-1721 | the loop ends as the recursive reading does, with that message in its fields |
| AuthMessages.AuthReadsAsLogin | tools/proto_generated/csharp/InternalLoginAccount.cs:305-342 | on every byte string, well formed or not, the server's and the client's message read alike |
| AuthMessages.AuthArrivesAsLogin | tools/proto_generated/csharp/InternalLoginAccount.cs:204-229 | an encoded AuthResult decodes as the equal LoginResult, and conversely |
| AuthMessages.AuthLayout | src/proto/schema/internal_login_account.proto:6-12 | a full message is its fields in schema order, with one field 4 for each entry |
| AuthMessages.AuthConcatenationIsMerge | tools/proto_generated/csharp/InternalLoginAccount.cs:283-342 | concatenated bytes decode to the merge |
| AuthMessages.AuthResultMessage.WriteTo | tools/proto_generated/csharp/InternalLoginAccount.cs:204-229 | appends the encoding |
| AuthMessages.AuthResultMessage.CalculateSize | tools/proto_generated/csharp/InternalLoginAccount.cs:260-279 | the length of that encoding |
| AuthMessages.AuthResultMessage.MergeFrom | tools/proto_generated/csharp/InternalLoginAccount.cs:283-301 | the object becomes the merge of both values |
| AuthMessages.AuthResultMessage.MergeFromStream | tools/proto_generated/csharp/InternalLoginAccount.cs:305-342 | the loop ends as the recursive reading does, with that message in its fields |
| ZoneData.BulkIsOneByOne | src/server_common/data/zone_runtime_data.cpp:33-42 | one bulk read and a record-by-record read give the same records and stop at the same byte, or both fail |
| ZoneData.ReadSucceeds | src/server_common/data/zone_runtime_data.cpp:136-176 | a file is read iff header, magic and version are right and the announced bytes are there |
| ZoneData.BinaryRoundTrip | src/server_common/data/zone_runtime_data.cpp:98-176 | reading a written pack returns it iff each list has fewer than 2^32 records |
| ZoneData.PrefixFails | src/server_common/data/zone_runtime_data.cpp:136-176 | every proper prefix of a written file is refused, with the error of the part that is cut |
| ZoneData.ReadersAgree | tools/DummyClientWinForms/Services/GameDataService.cs:97-128 | on every file the client loads a pack iff the server reads that pack and all counts are below 2^31 |
| ZoneData.WrittenFileLoads | tools/DummyClientWinForms/Services/GameDataService.cs:97-128 | a written pack loads unchanged in the client iff its counts fit |
| ZoneReaders.ReadZoneFile | src/server_common/data/zone_runtime_data.cpp:136-176 | the sequential reads give the specified result, error cases included |
| ZoneReaders.FileOutput.WriteVectorOf | src/server_common/data/zone_runtime_data.cpp:23-31 | appends the records of a vector, one after the other |
| ZoneReaders.WriteZoneFile | src/server_common/data/zone_runtime_data.cpp:98-134 | header and six vectors written in file order make the specified file |
| ZoneReaders.ZoneRuntimeDataStore.LoadFromBinary | src/server_common/data/zone_runtime_data.cpp:178-203 | the store holds the pack just read, or nothing and the error |
| ZoneReaders.BinaryReader.ReadRecord | tools/DummyClientWinForms/Services/GameDataService.cs:136-181 | word-by-word reading gives the record, or the end-of-stream exception |
| ZoneReaders.BinaryReader.LoadList | tools/DummyClientWinForms/Services/GameDataService.cs:121-126 | the loop with its wrapping 32-bit counter loads the list below 2^31 and otherwise ends in the exception |
| ZoneReaders.GameDataService.LoadFile | tools/DummyClientWinForms/Services/GameDataService.cs:97-128 | loaded, ignored or thrown as specified, with the lists to match |
| ZoneRecords.LayoutsAreLawful | src/server_common/data/zone_runtime_data.h:29-107 | every record is exactly its 2, 11 or 16 words |
| ZoneLayout.FileStarts | src/server_common/data/zone_runtime_data.cpp:98-116 | every written file starts with the bytes 5A 4E 44 31 01 00 00 00 and then the low 32 bits of the six lengths in section order |
| ZoneLayout.RecordsAreAt | src/server_common/data/zone_runtime_data.h:29-107 | in every written file each record lies at its section's offset plus its index times 8, 64 or 44, and each of its fields at a stated byte offset |
| ZoneLayout.ServerRefusals | src/server_common/data/zone_runtime_data.cpp:136-176 | each error iff: fewer than 32 bytes; another first word; another second word; fewer bytes than the six counts at offsets 8 to 28 announce |
| ZoneLayout.ClientRefusals | tools/DummyClientWinForms/Services/GameDataService.cs:97-128 | the client ignores a file iff eight bytes are there and not the right ones, and throws iff bytes are missing or a count is 2^31 or more |
| Decimals.UnsignedReadsBack | apps/zone_data_builder/main.cpp:98-108 | a printed natural number is read modulo 2^32, and refused from 2^64 on |
| Decimals.SignedReadsBack | apps/zone_data_builder/main.cpp:110-120 | a printed integer is read as its low 32 bits, signed, and refused outside 64 bits |
| Decimals.NegativeReadsUnsigned | apps/zone_data_builder/main.cpp:98-108 | a negative number is no error to the unsigned reader: it is read modulo 2^32 |
| Decimals.PrintedDigits | apps/zone_data_builder/main.cpp:255-277 | the k-th character from the end is the k-th decimal digit in ASCII |
| Decimals.SurroundingsAreIgnored | apps/zone_data_builder/main.cpp:98-120 | blanks before the sign and any text after the last digit make no difference |
| ZoneCsv.RowRoundTrip | apps/zone_data_builder/main.cpp:255-277 | a written row is one line and parses back to its record |
| ZoneCsv.RegionRowText | apps/zone_data_builder/main.cpp:265-276 | a region's row is three unsigned and eight signed numbers, joined by commas |
| ZoneCsv.PortalRowText | apps/zone_data_builder/main.cpp:262-264 | a portal's row is the region's cells, then two unsigned and three signed numbers |
| ZoneCsv.SplitLine | apps/zone_data_builder/main.cpp:87-96 | what stands before a separator is one piece, and the rest is split on its own |
| ZoneCsv.LinesCountAlone | apps/zone_data_builder/main.cpp:279-298 | a blank or unparsable line anywhere changes nothing; any other adds its row in its place |
| ZoneCsv.RowWidth | apps/zone_data_builder/main.cpp:300-340 | a row with too few cells is refused; cells beyond the columns are ignored |
| ZoneCsv.CsvPackRoundTrip | apps/zone_data_builder/main.cpp:255-340 | every pack comes back from its six CSV files record for record |
| ZoneCsv.PipelineRoundTrip | apps/zone_data_builder/main.cpp:300-340 | CSV out and in, then binary out and in, returns the pack in the server and in the client, each iff its counts fit |
| ZoneCsv.SplitCsv | apps/zone_data_builder/main.cpp:87-96 | the getline loop splits at commas and drops an empty last cell |
| ZoneCsv.LoadRegionCsv | apps/zone_data_builder/main.cpp:279-298 | first line skipped, blank and unparsable lines skipped, the others loaded in order |
| ZoneCsv.WriteRegionCsv | apps/zone_data_builder/main.cpp:244-253 | header and rows, one line each |
| Portals.ResolvePortalDestinations | apps/zone_data_builder/main.cpp:122-153 | the in-place loops equal a pointwise map of the original list |
| Portals.DestinationOf | apps/zone_data_builder/main.cpp:131-151 | the destination is the centre, axes exchanged, of the first reciprocal portal in list order, else its own |
| Portals.TargetFromFields | apps/zone_data_builder/main.cpp:125-130 | from the raw fields: the zone is the given one, or else a positive second value; the map is the given one, or else the zone, or else the portal's own |
| Portals.PlaceFromFields | apps/zone_data_builder/main.cpp:131-151 | from the raw fields: the place is the centre, height last, of the first portal in that zone whose second value is this portal's zone as a signed number, or else the portal's own |
| Portals.ResolveIsIdempotent | apps/zone_data_builder/main.cpp:122-153 | resolving twice is resolving once |

## Left out

- MergeFromStream: stops with `Unknown` at a tag the message does not declare; keeping unknown fields is not part of this model, and after a malformed input the object's fields are unspecified.
- CodedInput: fields of the protobuf runtime (recursion limit, UTF-8 validation) are not modelled; strings are byte sequences, and an end-group tag inside a nested message counts as malformed.
- WorldRoundTrip: holds for strings and nested encodings below 2^31 bytes, the format's own limit.
- WorldEntryMessage: holds the endpoints as values, so sharing of nested message objects between two messages is not captured; the same goes for the entries of LoginResultMessage, AuthResultMessage and WorldSelectMessage.
- CharacterSelectResponse and the other generated messages: the same code shapes again.
- IndexLifecycle: for the default packet routing only; handlers that override the routing, and the work done inside the upcalls, are not modelled.
- ReadZoneFile: allocation failure on huge counts is not modelled.
- LoadFile: after an exception the partly filled lists are unspecified.
- ContainsIsExact: over the reals; IEEE rounding is not modelled.
- CountersAreSafe: counters are unbounded, the wrap of a 64-bit counter is not modelled.
- OneThingAtATime: before any `stop`; stop, restart and changes of the settings during a run are not modelled.
- ActorFifo: while the system runs; start and stop of the workers, and posts before start, are not modelled. Time-outs of the worker's wait are swaps of an empty queue.
- OnlyItsShard: the shard-local lookups (`try_get_local`, `get_or_create_local`) are not modelled; actors are created by actor calls alone.
- TryGet: the forced send and close by index without a serial, and the statistics sweeps over the slots, are not modelled.
- RunInv: `asio` is atomic strand steps; TLS, socket options and logging are not modelled.
- SHA-256 text overloads, ODBC, SQL, configuration and JSON loading: calls and I/O around the modelled core.
- The database shard worker: a single FIFO queue, weaker than the actor system's.
- Redis dirty-set bookkeeping, CSV escaping of benchmark rows, geometry and minimap caches: only easy members.
- Legacy region files and the map loader's file parsing: plain sequential record reads, as in the zone file, the map's after a zlib decompression.
- CounterIsExact: takes each accept and close upcall as one step; the interleaving of their atomic operations is in `LineHost`, where any thread may close at any time but sessions have no identity.
