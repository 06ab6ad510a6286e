# Verification of the MPC wallet client

Models and proofs, in Dafny, of the client half of a two-party MPC wallet: the relay that turns an
asynchronous protocol task into request/response batches, the per-round session state machines of its two
engines (DKLs23 for secp256k1, FROST for ed25519), the reconstruction of an exported key, the codecs, and
the client drivers. `dafny verify dfyconfig.toml` checks all of it.

## How it is modelled

Concurrent code is a total step function over actions of all actors, cut where the code takes and releases a
lock, polls or awaits; a disabled action changes nothing, so a run is any sequence of actions and every
theorem about `Run(INIT, acts)` is about every interleaving. Code that updates fields in place is a class
beside it, with the source's fields and loops, whose methods are proved to be runs of those actions.

- `Relay`, `RelayConn`: protocol task, injector and collector around two bounded queues (16 in, 64 out) and a
  one-permit `Notify`. A notification that was delivered but not observed goes back to the permit.
- `SessionKeys`: what the session maps of both engines are keyed by.
- `FrostSessions` (machine), `FrostInvariant`, `FrostTrace`, `FrostDelay`, `FrostTheorems`; `FrostEngine` and `FrostCalls`
  for a call that nothing interrupts and the functions themselves. Library states and nonces, which are
  move-only in the code, have identities, and a history says where each is and who made it. What the library
  answers is an argument.
- `TaskSessions`, `TaskTheorems`, `TaskEngine`: ownership of spawned protocol tasks and the replay mark of
  the DKLs23 engine.
- `Founding`, `Routing`, `RoutingTheorems`: both engines behind one API, the lookup that routes a call being a
  lock section of its own.
- `ModArith`, `Lagrange`, `Export`: modular arithmetic over an arbitrary prime, section 4.2 of RFC 9591 for
  interpolation and section 6.1 for the scalar encoding, and `export_private_key` on top. `ExportGuard`: its
  dispatch on the curve and the registry that signing consults.
- `Numerals`, `Text`, `Address`, `Base64`, `Envelope`, `CompactJson`, `Utf8`, `Sse`, `SseCursor`: Base58 and
  EIP-55 addresses, base64 (section 4 of RFC 4648), share and wire envelopes, and the bridge's codec. The
  hash function, JSON text of general records and the machine's byte order are parameters.
- `MpcBridge`, `MpcClient`: the client's loops over any list of server answers, on top of the FROST engine
  and an arbitrary oracle in place of the DKLs23 engine.
- `Matcher`, `WebSocket`: the request/response matcher, one event for each stretch of code between awaits.

## What the code does not do

Where a promise of a comment or test, or a natural expectation, fails, there is a lemma with the input and
the exact condition.

- A batch is not always a round, although the comment at `mpc_engine.rs` lines 81-92 says so. Messages are injected
  before `collect_batch` subscribes, and the task notifies some time after its poll, so a signal that belongs to the
  round before, stored as a permit or still to be raised, can end the batch early. `Relay.EarlyBatchIff` gives the
  condition; nothing is lost, the rest comes with the next batch.
- A round 1 that inserts over a stored session orphans that session's DKLs23 task: exactly then
  (`TaskTheorems.OrphansIff`, with a run in `TaskTheorems.RestartOrphansTheFirstTask`). A session is in both engines'
  maps exactly after one engine has inserted it while the other held it (`RoutingTheorems.InBothIff`,
  `RoutingTheorems.RestartMixesEngines`).
- The `consumed` mark does not keep two rounds of one sign session apart: it is looked at in the lookup only
  (`TaskTheorems.TwoInsideIff`, with a run in `TaskTheorems.TwoRoundsInside`, and `TaskTheorems.ResetClearsTheOthersMark`).
- A second request in flight with an id already in the map makes the first one unreachable
  (`Matcher.MappedStep`, `Matcher.RepeatedIdIsLost`). After a failed write, and only then, the old stream is still
  listened to, and its end takes down the next connection (`Matcher.StreamsStep`, `Matcher.StreamsRun`,
  `Matcher.StaleStreamEndsNewConnection`).
- A DKLs23 share in an envelope signs, but export and recovery read the envelope's own bytes as the share
  (`ExportGuard.SignsButNotExportedIff`, `ExportGuard.SignsButNotRecoveredIff`,
  `ExportGuard.EnvelopedShareIsNotExported`).
- A list of 2^31 elements or more does not survive the bridge's codec (`Sse.BytesRoundTripIff`).
- The client never compares the curve it asked for with what it gets: the key is of that curve exactly if the
  envelope in the server's first answer names it (`MpcClient.Client.Keygen`, `MpcClient.SecpKeyForEd25519`).
- The rotation version is an i32: after n recoveries from version v0 it is v0 + n exactly if that does not exceed the
  largest i32 (`FrostTheorems.RotationChain`, with a run past it in `FrostTheorems.LargestVersionWraps`).

## Model

| member | source | states |
|---|---|---|
| `Relay.NoLostWakeup` | rust/src/api/mpc_engine.rs:97-131 | in every interleaving of task, injector and collector, a `collect_batch` past its first message that finds the task asleep on an empty open input has a notification to observe |
| `Relay.NeverStuck` | rust/src/api/mpc_engine.rs:97-131 | if the task sleeps or has gone, a call that has (or can take) its first message returns by the collector's own steps alone |
| `Relay.CollectorReturns` | rust/src/api/mpc_engine.rs:108-131 | the collector needs a finite number of its own steps once a notification is there or the task is gone |
| `Relay.SleepingTaskLeavesPermit` | rust/src/relay.rs:36-45 | between calls, a sleeping task with undelivered output has left a stored permit |
| `Relay.MessagesConserved` | rust/src/api/mpc_engine.rs:93-144 | the messages accepted by `start_send` are exactly the returned batches, then the batch in progress, then the output queue, in order; likewise for the input; the queues never exceed 16 and 64 |
| `Relay.ReturnIsComplete` | rust/src/api/mpc_engine.rs:104-131 | a call ends with a last look at an empty queue, and at that look everything accepted so far is in the batches returned; `None` only from a finished task; a batch is never empty |
| `Relay.FreshBatchIsNotified` | rust/src/api/mpc_engine.rs:97-131 | a batch that took over no old permit and is not the last ends only after a notification raised during the call, and holds all the task had sent by then |
| `Relay.UnsignalledBatchIsARound` | rust/src/api/mpc_engine.rs:97-131 | a call that finds neither a stored permit nor a task between its empty poll and its notification returns a batch, short of the last, only after the task has polled an empty input during the call |
| `Relay.DrainCompletes` | rust/src/api/mpc_engine.rs:125-130 | draining adds exactly the rest of the output queue, in order, and returns |
| `Relay.ReadyCompletes` | rust/src/api/mpc_engine.rs:109-130 | a collector with a notification to observe returns its batch plus the output queue without anybody's help |
| `Relay.FirstMessageCompletes` | rust/src/api/mpc_engine.rs:103-130 | with an old permit taken over, the first available messages are returned at once |
| `Relay.OldSignalEndsEarly` | rust/src/api/mpc_engine.rs:97-131 | a call that finds a stored permit, or a task that has polled but not notified yet, can return a batch without the task polling an empty input during the call |
| `Relay.EarlyBatchIff` | rust/src/api/mpc_engine.rs:81-131 | a call can return a batch before the task comes to the end of a round if and only if it finds a stored permit or a task between poll and notification, and a first message can still be had; the comment on lines 81-92 promises whole rounds, the code does not |
| `Relay.InvRun` | rust/src/api/mpc_engine.rs:93-144 | conservation, call shape, notification and ending invariants hold in every run |
| `RelayConn.ChannelRelayConn.StartSend` | rust/src/relay.rs:55-58 | appends to the output queue unless it is full or its receiver is gone, and says whether it did |
| `RelayConn.ChannelRelayConn.PollInput` | rust/src/relay.rs:36-44 | takes the oldest input message; pending exactly on an empty open queue |
| `RelayConn.ChannelRelayConn.NotifyOneWaiter` | rust/src/relay.rs:38-41 | delivers to the registered waiter, else stores the one permit |
| `RelayConn.ChannelRelayConn.PollNext` | rust/src/relay.rs:36-45 | a pending poll is followed by the notification, which is never lost |
| `RelayConn.ChannelRelayConn.InjectAll` | rust/src/api/mpc_engine.rs:135-144 | injects the messages in order, waiting for room; fails only when the task has gone; what went in is a prefix |
| `RelayConn.ChannelRelayConn.AwaitFirstMessage` | rust/src/api/mpc_engine.rs:98-105 | enables the notification before waiting, unconditionally, for a first message |
| `RelayConn.ChannelRelayConn.Select` | rust/src/api/mpc_engine.rs:109-123 | the notification is looked at before the queue; ends with a notification or the end of the task |
| `RelayConn.ChannelRelayConn.Receive` | rust/src/api/mpc_engine.rs:115-118 | moves the oldest message to the batch |
| `RelayConn.ChannelRelayConn.ReturnBatch` | rust/src/api/mpc_engine.rs:125-130 | leaves with the batch, putting an unobserved notification back |
| `RelayConn.ChannelRelayConn.ReturnNone` | rust/src/api/mpc_engine.rs:104 | leaves with `None` only when all output has been returned |
| `RelayConn.ChannelRelayConn.CollectBatch` | rust/src/api/mpc_engine.rs:93-132 | a returned batch makes the returned messages equal to all accepted ones; `None` only from a finished task; it blocks only without a first message or with the task awake |
| `FrostTheorems.SecretsUsedOnce` | rust/src/api/engine_ed25519.rs:218-263 | in every run with concurrent calls and reused ids, each library state and each nonce reaches the library at most once |
| `FrostTheorems.DelayLine` | rust/src/api/engine_ed25519.rs:218-263 | what the library gets with a state is exactly the server payload stored by the previous round call of the same incarnation of the session: the call of the incarnation's last earlier use of the library, or its round 1 if there was none; never the calling round's own payload |
| `FrostDelay.DelayRun` | rust/src/api/engine_ed25519.rs:235-263 | over every run each living secret, and each used one at its use, was made by the round call before it in its incarnation, and no call uses the library twice |
| `FrostDelay.UseDelay` | rust/src/api/engine_ed25519.rs:242-252 | a use makes its call the round before for its own incarnation and leaves that of every other incarnation alone |
| `FrostTheorems.NonceSignsItsMessage` | rust/src/api/engine_ed25519.rs:335-400 | a nonce reaches the signing call only with a package whose message is the one given at round 1 of its session |
| `FrostTheorems.StoredSessionsAreFresh` | rust/src/api/engine_ed25519.rs:375-396 | stored sign sessions are unconsumed and hold their nonce; each map holds its own kind of session |
| `FrostTheorems.DeadForever` | rust/src/api/engine_ed25519.rs:242-252 | an incarnation with no secret left never reaches the library again, whatever happens later |
| `FrostTheorems.LibraryFailureIsFinal` | rust/src/api/engine_ed25519.rs:242-252 | a library error after the removal leaves the incarnation unusable for good |
| `FrostTheorems.RotationChain` | rust/src/api/engine_ed25519.rs:483-574 | n completed recoveries, each started with the previous result, keep verifying key and address; from an i32 v0 the version is v0 + n wrapped to an i32, which is v0 + n if and only if that does not exceed the largest i32 |
| `FrostTheorems.LargestVersionWraps` | rust/src/api/engine_ed25519.rs:483-574 | an undisturbed recovery started with the largest version completes with the smallest one |
| `FrostTheorems.VersionCarried` | rust/src/api/engine_ed25519.rs:516-530 | a stored recovery session carries the version and key given to the round 1 of its own incarnation, across the intermediate round |
| `FrostTheorems.ExportLock` | rust/src/api/engine_ed25519.rs:326-333 | once an export of a key has returned, a signing begun later with that key, or with the key of any share a chain of recoveries from it returned, is rejected at round 1 and creates no nonce |
| `FrostTheorems.LockedRun` | rust/src/api/engine_ed25519.rs:326-333 | a locked call stays locked in every continuation: the registry only grows |
| `FrostTrace.OthersStay` | rust/src/api/engine_ed25519.rs:218-252 | a section changes the stage of its own call only |
| `FrostInvariant.InvStep` | rust/src/api/engine_ed25519.rs:218-666 | every lock section keeps: stored and held secrets are where the history says, untouched, with their payload; one live secret per incarnation; uses spent and distinct |
| `FrostInvariant.InvRun` | rust/src/api/engine_ed25519.rs:218-666 | the same over every run |
| `FrostInvariant.LibraryCases` | rust/src/api/engine_ed25519.rs:242-263 | the section of the library call discards, consumes or renews the held session, and nothing else |
| `FrostTrace.StepLater` | rust/src/api/engine_ed25519.rs:218-666 | no section changes a recorded request, secret, use or exported key |
| `FrostTrace.TracedRun` | rust/src/api/engine_ed25519.rs:218-666 | over every run each secret, use, rotation and export is traced to the calls that supplied it |
| `FrostEngine.WholeIsRun` | rust/src/api/engine_ed25519.rs:205-674 | a call with nothing in between is a run of its sections |
| `FrostEngine.WholeKeygenRound1` | rust/src/api/engine_ed25519.rs:218-233 | stores a one-part state with the payload, or nothing on a parse or library error |
| `FrostEngine.WholeKeygenRound2` | rust/src/api/engine_ed25519.rs:235-254 | without a session or payload nothing changes; a library error leaves the session removed; else the next state and the new payload are stored |
| `FrostEngine.WholeKeygenFinalize` | rust/src/api/engine_ed25519.rs:256-286 | removes the session and returns the key the library made, or an error |
| `FrostEngine.WholeSignRound1` | rust/src/api/engine_ed25519.rs:309-367 | rejects missing arguments and exported keys; else stores a fresh nonce with the message |
| `FrostEngine.WholeSignRound2` | rust/src/api/engine_ed25519.rs:369-424 | removes the session; signs only a package for the stored message |
| `FrostEngine.WholeRecoverRound1` | rust/src/api/engine_ed25519.rs:463-495 | stores a one-part state with payload, version, clock and the key of the backup share |
| `FrostEngine.WholeRecoverRound2` | rust/src/api/engine_ed25519.rs:497-534 | evicts an expired session before looking at the payload; else as in keygen, keeping version, time and key |
| `FrostEngine.WholeRecoverFinalize` | rust/src/api/engine_ed25519.rs:536-575 | completes only if the key is the old one, with the next version; the session is gone either way |
| `FrostEngine.WholeExport` | rust/src/api/engine_ed25519.rs:593-674 | registers the key only when both shares have it and the reconstruction succeeds |
| `FrostEngine.WholeCall` | rust/src/api/engine_ed25519.rs:205-674 | for each of the nine calls, the sections together have the effect given by one sequential specification |
| `FrostCalls.Engine.KeygenRound1` | rust/src/api/engine_ed25519.rs:218-233 | inserts the session after the library's first part; the new maps are the sequential specification's and a run of the call's lock sections |
| `FrostCalls.Engine.KeygenRound2` | rust/src/api/engine_ed25519.rs:235-254 | removes, runs part 2 on the stored payload, reinserts with the new payload; the new maps are the sequential specification's and a run of the call's lock sections |
| `FrostCalls.Engine.KeygenFinalize` | rust/src/api/engine_ed25519.rs:256-286 | removes and runs part 3 on the stored payload; the new maps are the sequential specification's and a run of the call's lock sections |
| `FrostCalls.Engine.SignRound1` | rust/src/api/engine_ed25519.rs:309-367 | checks the registry, commits, inserts; the new maps are the sequential specification's and a run of the call's lock sections |
| `FrostCalls.Engine.SignRound2` | rust/src/api/engine_ed25519.rs:369-424 | removes, checks mark and message, takes the nonce, signs; the new maps are the sequential specification's and a run of the call's lock sections |
| `FrostCalls.Engine.RecoverRound1` | rust/src/api/engine_ed25519.rs:463-495 | inserts with version, time and key; the new maps are the sequential specification's and a run of the call's lock sections |
| `FrostCalls.Engine.RecoverRound2` | rust/src/api/engine_ed25519.rs:497-534 | evicts, or removes, runs part 2 and reinserts; the new maps are the sequential specification's and a run of the call's lock sections |
| `FrostCalls.Engine.RecoverFinalize` | rust/src/api/engine_ed25519.rs:536-575 | removes, runs part 3, compares the keys; the new maps are the sequential specification's and a run of the call's lock sections |
| `FrostCalls.Engine.ExportPrivateKey` | rust/src/api/engine_ed25519.rs:593-674 | compares the keys, reconstructs, registers; the new maps are the sequential specification's and a run of the call's lock sections |
| `FrostCalls.Engine.CallKeygen` | rust/src/api/engine_ed25519.rs:205-216 | rounds 1, 2 and 0; any other round is refused and changes nothing |
| `FrostCalls.Engine.CallSign` | rust/src/api/engine_ed25519.rs:293-307 | rounds 1 and 2; any other round is refused and changes nothing |
| `FrostCalls.Engine.CallRecover` | rust/src/api/engine_ed25519.rs:444-461 | rounds 1, 2 and 0; any other round is refused and changes nothing |
| `TaskSessions.InvRun` | rust/src/api/mpc_engine.rs:230-662 | over every run: each session owns its task, each task has one place, handles end once, marks belong to calls under way |
| `TaskSessions.InvStep` | rust/src/api/mpc_engine.rs:230-662 | each lock section keeps that |
| `TaskTheorems.StoredSessionOwnsTask` | rust/src/api/mpc_engine.rs:290-292 | every stored session holds the handle of a task of its own that has been neither joined nor aborted |
| `TaskTheorems.EndedOnce` | rust/src/api/mpc_engine.rs:235-277 | no spawned task is joined or aborted twice |
| `TaskTheorems.JoinsItsOwnTask` | rust/src/api/mpc_engine.rs:319-326 | a call awaits only a task spawned by a round 1 of its own session id |
| `TaskTheorems.MarkedOnlyInsideACall` | rust/src/api/mpc_engine.rs:623-637 | a sign session is marked consumed only while some call on it is under way |
| `TaskTheorems.QuietSessionsUnmarked` | rust/src/api/mpc_engine.rs:609-647 | with no call in flight every stored sign session has `consumed == false` |
| `TaskTheorems.WhereTasksGo` | rust/src/api/mpc_engine.rs:268-292 | with no call in flight each spawned task is in its session, joined or aborted, or its handle was dropped by a second round 1 of the id or by a round 1 that got no message |
| `TaskTheorems.OrphansIff` | rust/src/api/mpc_engine.rs:290-292 | an action orphans a task if and only if it is the insert of a round 1 whose session id is stored at that moment |
| `TaskTheorems.StartedOnceNeverOverwritten` | rust/src/api/mpc_engine.rs:290-292 | if no session id is started twice, no running task is orphaned by an insert |
| `TaskTheorems.RestartOrphansTheFirstTask` | rust/src/api/mpc_engine.rs:290-292 | starting an id twice leaves the first task running with nobody to await or abort it |
| `TaskTheorems.TwoInsideIff` | rust/src/api/mpc_engine.rs:621-629 | two rounds of one sign session come to be under way at once if and only if a call collects while another is between collecting and resetting: the mark is not looked at again |
| `TaskTheorems.TwoRoundsInside` | rust/src/api/mpc_engine.rs:609-637 | a run in which two later rounds of one sign session, both past their lookup before either collects, are inside at once; the first reset then clears the mark while the second is inside |
| `TaskTheorems.ResetClearsTheOthersMark` | rust/src/api/mpc_engine.rs:632-637 | then the first reset clears the mark while the other call is still inside |
| `TaskEngine.Sessions.InsertSession` | rust/src/api/mpc_engine.rs:290-292 | one lock section: insert, over whatever is there |
| `TaskEngine.Sessions.GetSession` | rust/src/api/mpc_engine.rs:453-466 | one lock section: look up; an expired recovery is removed and its task aborted; a marked sign session is refused |
| `TaskEngine.Sessions.Collect` | rust/src/api/mpc_engine.rs:623-629 | one lock section: set the mark and collect |
| `TaskEngine.Sessions.ResetMark` | rust/src/api/mpc_engine.rs:634-636 | one lock section: clear the mark |
| `TaskEngine.Sessions.RemoveSession` | rust/src/api/mpc_engine.rs:319-322 | one lock section: remove and take the handle out |
| `TaskEngine.Sessions.StartRound` | rust/src/api/mpc_engine.rs:257-295 | inserts exactly when spawn, injection and first batch succeed; otherwise the map is unchanged |
| `TaskEngine.Sessions.FinishRound` | rust/src/api/mpc_engine.rs:230-255 | removes the session in any case; completes exactly when it was there and its task succeeds |
| `TaskEngine.Sessions.NextRound` | rust/src/api/mpc_engine.rs:608-662 | an error in between leaves the session; a batch leaves it unmarked; a closed channel removes it and joins its task |
| `Routing.Projects` | rust/src/api/mpc_engine.rs:210-226 | each engine behind the common API runs its own machine, so all that holds of every run of an engine holds of it here |
| `Founding.FrostFoundedStep` | rust/src/api/engine_ed25519.rs:235-254 | a FROST call gets past the lookup only if some round 1 of its session was begun in FROST |
| `Founding.TaskFoundedStep` | rust/src/api/mpc_engine.rs:297-303 | a DKLs23 call gets past the lookup only if some round 1 of its session was begun in DKLs23 |
| `RoutingTheorems.InvRun` | rust/src/api/mpc_engine.rs:186-226 | each engine has begun exactly the calls routed to it, in every run |
| `RoutingTheorems.AdvancesWhereStarted` | rust/src/api/mpc_engine.rs:362-382 | a call that advances a session does so in an engine some round 1 of the session was sent to |
| `RoutingTheorems.HandledByItsEngine` | rust/src/api/mpc_engine.rs:523-541 | with each id started once, every later call is handled by the engine that ran round 1, or gets nowhere |
| `RoutingTheorems.MapsDisjoint` | rust/src/api/mpc_engine.rs:192-208 | with each id started once, the FROST and DKLs23 maps never hold the same session |
| `RoutingTheorems.InBothIff` | rust/src/api/mpc_engine.rs:186-226 | a session comes to be in both maps if and only if one engine inserts it while the other holds it |
| `RoutingTheorems.RestartMixesEngines` | rust/src/api/mpc_engine.rs:219-226 | an id started on both curves is in both maps, and its later rounds all go to FROST |
| `ModArith.ExtGcd` | rust/src/api/engine_ed25519.rs:645-646 | the extended Euclidean algorithm keeps Bezout's identity |
| `ModArith.InverseCorrect` | rust/src/api/engine_ed25519.rs:645-646 | the computed inverse is one, modulo any prime, for any non-zero scalar |
| `ModArith.LittleEndianRoundTrip` | rust/src/api/engine_ed25519.rs:649 | a number that fits is read back from its little-endian bytes |
| `ModArith.LittleEndianBack` | rust/src/api/engine_ed25519.rs:624-631 | little-endian bytes are the encoding of the number they encode, so scalars and 32-byte strings correspond |
| `Lagrange.InterpolatesAtZero` | rust/src/api/engine_ed25519.rs:632-648 | for every prime, polynomial and two distinct identifiers, `l1*s1 + l2*s2` is f(0) |
| `Lagrange.PolynomialExists` | rust/src/api/engine_ed25519.rs:632-648 | any two shares with distinct identifiers lie on a polynomial of degree one |
| `Lagrange.Core` | rust/src/api/engine_ed25519.rs:632-648 | (x1 - x2) times the secret is x1*s2 - x2*s1 |
| `Export.Checks` | rust/src/api/engine_ed25519.rs:593-674 | export succeeds exactly if keys agree, all four scalars are canonical, identifiers differ and the secret matches the key; the result is its 32-byte encoding and the address |
| `Export.SharesExport` | rust/src/api/engine_ed25519.rs:593-674 | shares of one key export its secret, canonically encoded, with the same result whichever share is passed first |
| `Export.DealThenExport` | rust/src/api/engine_ed25519.rs:577-674 | for every prime group, polynomial and two distinct identifiers, the shares dealt from the polynomial export its constant term, whichever share is passed first |
| `Export.ExportIff` | rust/src/api/engine_ed25519.rs:593-674 | export succeeds if and only if both shares parse and lie on a polynomial whose constant term is the discrete logarithm of the common key |
| `Export.RefreshedShare` | rust/src/api/engine_ed25519.rs:541-562 | a share after any list of zero-constant refreshes is the value of the refreshed polynomial |
| `Export.RefreshKeepsSecret` | rust/src/api/engine_ed25519.rs:541-562 | any number of zero-constant refreshes of any two shares leaves the reconstructed secret alone |
| `Export.RefreshedSharesExport` | rust/src/api/engine_ed25519.rs:593-674 | refreshed shares export what the originals do |
| `Export.FinalizeCannotMismatch` | rust/src/api/engine_ed25519.rs:541-562 | with a library that refreshes, the old/new key comparison at the end of a recovery never fires |
| `ExportGuard.ExportedKeys.ExportPrivateKey` | rust/src/api/mpc_engine.rs:734-797 | an ed25519 envelope goes to FROST, anything else is read as raw base64; registers the key exactly when both shares parse, have the same key and reconstruct; the registry is that of all exports made |
| `ExportGuard.ExportedKeys.MaySign` | rust/src/api/mpc_engine.rs:551-564 | signing is refused at round 1 if and only if the share does not parse or some export so far has succeeded with its key |
| `ExportGuard.RegisteredIff` | rust/src/api/mpc_engine.rs:788-789 | after any list of exports a key is registered if and only if one with that key succeeded |
| `ExportGuard.CurvesApart` | rust/src/api/mpc_engine.rs:559-564 | an export locks only shares of its own curve |
| `ExportGuard.SignsButNotExportedIff` | rust/src/api/mpc_engine.rs:741-751 | a share that signs is refused by export if and only if its bytes read as an envelope that names secp256k1, given that the DKLs23 parser takes no envelope bytes; all other shares are read alike |
| `ExportGuard.EnvelopedShareIsNotExported` | rust/src/api/mpc_engine.rs:745-751 | the envelope the code itself writes for a DKLs23 share signs and can be neither exported nor recovered from |
| `ExportGuard.SignsButNotRecoveredIff` | rust/src/api/mpc_engine.rs:362-416 | the same for recovery: round 1 refuses a share that signs if and only if it is such an envelope; all other shares are read alike |
| `Address.SolanaAddressDecodes` | rust/src/api/address.rs:11-19 | accepted exactly for 32 bytes; the address decodes back to the key, leading zeros included |
| `Address.SolanaAddressesDistinct` | rust/src/api/address.rs:11-19 | distinct keys have distinct addresses |
| `Address.SolanaAddressLength` | rust/src/api/address.rs:3-6 | an address has 32 to 44 characters |
| `Address.DeriveEvmAddress` | rust/src/api/address.rs:25-58 | accepts exactly 65 bytes with prefix 4; gives 0x and the checksummed hex of the last 20 hash bytes |
| `Address.ChecksumIdempotent` | rust/src/api/address.rs:46-55 | lower-casing undoes the checksum, re-checksumming is the identity, a letter is upper-case exactly when its nibble is at least 8 |
| `Address.OneCapitalisationPasses` | rust/src/api/address.rs:46-55 | of all capitalisations of an address exactly one is the checksummed one |
| `Numerals.ConvertRoundTrip` | rust/src/api/address.rs:18 | changing base there and back gives the digits back, leading zeros included |
| `Text.HexRoundTrip` | rust/src/api/address.rs:38 | hex text reads back as its bytes |
| `Base64.DecodeEncode` | rust/src/api/types.rs:58-62 | base64 text reads back as its bytes |
| `Base64.EncodeDecode` | rust/src/api/types.rs:71-73 | what base64 accepts is the encoding of what it decodes to |
| `Base64.DecodesIff` | rust/src/api/types.rs:271-276 | a text decodes to some bytes if and only if it is their canonical, padded encoding |
| `Envelope.ShareRoundTrip` | rust/src/api/types.rs:45-87 | for every curve and byte string, decoding undoes encoding |
| `Envelope.LegacyShare` | rust/src/api/types.rs:84-86 | bytes that are no envelope come back unchanged, as secp256k1 |
| `Envelope.DecodeEachIff` | rust/src/api/types.rs:267-279 | the payloads decode to a list exactly if each decodes to its element |
| `Envelope.DecodeEachFails` | rust/src/api/types.rs:267-279 | decoding fails exactly when some payload is bad base64 |
| `Envelope.BatchRoundTrip` | rust/src/api/mpc_engine.rs:147-160 | packing a message list into a batch and decoding all payloads gives the list |
| `Envelope.ServerBatchAccepted` | rust/src/api/mpc_engine.rs:171-179 | a server envelope is accepted with given messages if and only if it parses, comes from party 1 and carries their base64, as a list or as a single payload |
| `CompactJson.CompactReadsBack` | rust/src/api/types.rs:57-62 | the compact JSON text of a share envelope reads back as the envelope |
| `CompactJson.CompactShareRoundTrip` | rust/src/api/types.rs:45-87 | so a stored share decodes to its curve and bytes, with no assumption about JSON |
| `Utf8.RoundTrip` | rust/src/frb_generated.rs:1019-1025 | UTF-8 text reads back as its characters |
| `Sse.I32RoundTrip` | rust/src/frb_generated.rs:1039-1044 | an i32 followed by anything reads back, in either byte order |
| `Sse.ListRoundTrip` | rust/src/frb_generated.rs:1046-1080 | a list below 2^31 elements followed by anything reads back and leaves exactly the rest, for any faithful element codec |
| `Sse.OptionRoundTrip` | rust/src/frb_generated.rs:1090-1132 | an optional value likewise |
| `Sse.ByteListsRoundTrip` | rust/src/frb_generated.rs:1058-1068 | decoding an encoding followed by any bytes gives the value and leaves exactly those bytes |
| `Sse.Array32RoundTrip` | rust/src/frb_generated.rs:1177-1183 | decoding an encoding followed by any bytes gives the value and leaves exactly those bytes |
| `Sse.CurveRoundTrip` | rust/src/frb_generated.rs:1027-1037 | decoding an encoding followed by any bytes gives the value and leaves exactly those bytes |
| `Sse.ProtocolRoundTrip` | rust/src/frb_generated.rs:1134-1145 | decoding an encoding followed by any bytes gives the value and leaves exactly those bytes |
| `Sse.CurveBytesRoundTrip` | rust/src/frb_generated.rs:1147-1154 | decoding an encoding followed by any bytes gives the value and leaves exactly those bytes |
| `Sse.ShareRoundTrip` | rust/src/frb_generated.rs:1156-1168 | decoding an encoding followed by any bytes gives the value and leaves exactly those bytes |
| `Sse.WireRoundTrip` | rust/src/frb_generated.rs:1190-1216 | decoding an encoding followed by any bytes gives the value and leaves exactly those bytes |
| `Sse.StrsFaithful` | rust/src/frb_generated.rs:1046-1056 | lists of strings within the length bound read back |
| `Sse.PrefixFree` | rust/src/frb_generated.rs:1424-1611 | no encoding is a prefix of another value's, so field sequences decode in order |
| `Sse.BytesRoundTripIff` | rust/src/frb_generated.rs:1474-1482 | a byte list reads back if and only if it has fewer than 2^31 elements |
| `SseCursor.SseSerializer.PutBytes` | rust/src/frb_generated.rs:1474-1482 | appends exactly the encoding of the value to the cursor |
| `SseCursor.SseSerializer.PutStrs` | rust/src/frb_generated.rs:1454-1462 | appends exactly the encoding of the value to the cursor |
| `SseCursor.SseSerializer.PutByteLists` | rust/src/frb_generated.rs:1464-1472 | appends exactly the encoding of the value to the cursor |
| `SseCursor.SseSerializer.PutStr` | rust/src/frb_generated.rs:1424-1429 | appends exactly the encoding of the value to the cursor |
| `SseCursor.SseSerializer.PutCurveAndBytes` | rust/src/frb_generated.rs:1548-1554 | appends exactly the encoding of the value to the cursor |
| `SseCursor.SseSerializer.PutShare` | rust/src/frb_generated.rs:1556-1563 | appends exactly the encoding of the value to the cursor |
| `SseCursor.SseSerializer.PutWire` | rust/src/frb_generated.rs:1590-1604 | appends exactly the encoding of the value to the cursor |
| `SseCursor.SseSerializer.PutOptStrs` | rust/src/frb_generated.rs:1521-1529 | appends exactly the encoding of the value to the cursor |
| `SseCursor.SseSerializer.PutI32` | rust/src/frb_generated.rs:1447-1452 | appends four bytes that read back as the number, in the order of the machine |
| `SseCursor.SseDeserializer.TakeBytes` | rust/src/frb_generated.rs:1070-1080 | advances past exactly what the decoder of the type uses and returns its value, or fails where the code panics |
| `SseCursor.SseDeserializer.TakeStrs` | rust/src/frb_generated.rs:1046-1056 | advances past exactly what the decoder of the type uses and returns its value, or fails where the code panics |
| `SseCursor.SseDeserializer.TakeByteLists` | rust/src/frb_generated.rs:1058-1068 | advances past exactly what the decoder of the type uses and returns its value, or fails where the code panics |
| `SseCursor.SseDeserializer.TakeStr` | rust/src/frb_generated.rs:1019-1025 | advances past exactly what the decoder of the type uses and returns its value, or fails where the code panics |
| `SseCursor.SseDeserializer.TakeI32` | rust/src/frb_generated.rs:1039-1044 | advances past exactly what the decoder of the type uses and returns its value, or fails where the code panics |
| `SseCursor.SseDeserializer.TakeCurveAndBytes` | rust/src/frb_generated.rs:1147-1154 | advances past exactly what the decoder of the type uses and returns its value, or fails where the code panics |
| `SseCursor.SseDeserializer.TakeShare` | rust/src/frb_generated.rs:1156-1168 | advances past exactly what the decoder of the type uses and returns its value, or fails where the code panics |
| `SseCursor.SseDeserializer.TakeWire` | rust/src/frb_generated.rs:1190-1216 | advances past exactly what the decoder of the type uses and returns its value, or fails where the code panics |
| `SseCursor.SseDeserializer.TakeOptStrs` | rust/src/frb_generated.rs:1123-1132 | advances past exactly what the decoder of the type uses and returns its value, or fails where the code panics |
| `SseCursor.WireThrough` | rust/src/frb_generated.rs:1590-1604 | an envelope written and read back through the two cursors is the same envelope, whatever follows it |
| `MpcBridge.Bridge.Keygen` | rust/src/api/mpc_engine.rs:217-226 | routes by the envelope's curve or the FROST map; in FROST a second round needs part 2 granted on the stored payload, and a result is the library's answer to the stored state and payload; elsewhere it is the DKLs23 engine's answer |
| `MpcBridge.Bridge.Recover` | rust/src/api/mpc_engine.rs:354-382 | the same for recovery, carrying key and version to the result |
| `MpcBridge.Bridge.Sign` | rust/src/api/mpc_engine.rs:515-541 | the same for signing: only the stored message is signed |
| `MpcClient.StoryGoesOn` | lib/src/client/mpc_client.dart:58-81 | one more turn keeps: while FROST says continue at most two rounds have run, the stored parts count them and the last payload is stored; a result means rounds 1, 2, 0 |
| `MpcClient.CarriedGoesOn` | lib/src/client/mpc_client.dart:120-142 | one more turn keeps the backup key and version in the session and gives them, version plus one, to the result |
| `MpcClient.SignGoesOn` | lib/src/client/mpc_client.dart:221-244 | one more turn of signing keeps the message; a signature comes only of round 2 on a package for it |
| `MpcClient.Client.RpcCall` | lib/src/client/mpc_client.dart:276-321 | each call takes the next id and returns the result object of the answer to it, or the first error |
| `MpcClient.Client.KeygenTurn` | lib/src/client/mpc_client.dart:59-81 | a turn sends the previous engine output under the next id and round and hands the server's payload to the engine, or finishes with round 0 |
| `MpcClient.Client.Keygen` | lib/src/client/mpc_client.dart:45-91 | for any server: ids strictly increase and each request carries the previous engine output; if the first answer's envelope names ed25519 a result means rounds 1, 2, 0 with part 2 taken on the first payload and part 3 on the second; the key is of the requested curve if and only if that envelope names it |
| `MpcClient.SecpKeyForEd25519` | lib/src/client/mpc_client.dart:45-91 | asked for an ed25519 key, with a server whose envelopes name no curve, the client returns a secp256k1 one |
| `MpcClient.EngineGoesOn` | rust/src/api/mpc_engine.rs:217-226 | one more turn of keygen stays in the engine that ran round 1 |
| `MpcClient.Client.Recover` | lib/src/client/mpc_client.dart:94-188 | for any server the same order of requests, and the caller's `mpcKeyId`; with an ed25519 backup share a result means rounds 1, 2, 0 as in keygen, the share's key and the next version |
| `MpcClient.Client.Sign` | lib/src/client/mpc_client.dart:201-254 | for any server a result is the engine's last output or the server's completed answer; with an ed25519 share the former took rounds 1 and 2 on a package for the caller's message |
| `Matcher.OneOutcome` | example/lib/ws_transport_example.dart:59-102 | under any order of events, also with repeated ids, a call has no outcome until it is done and then exactly one; a response outcome is to its own id |
| `Matcher.MapHoldsOpenCompleters` | example/lib/ws_transport_example.dart:153-181 | no completer in the map has been completed |
| `Matcher.MappedStep` | example/lib/ws_transport_example.dart:75-86 | an event keeps every waiting call in the map if and only if it does not register an id that is already there |
| `Matcher.WaitingOrDone` | example/lib/ws_transport_example.dart:75-102 | with distinct ids in flight a waiting call is in the map under its id |
| `Matcher.DisconnectLeavesNone` | example/lib/ws_transport_example.dart:191-200 | with distinct ids in flight a disconnect gives every waiting call an error and empties the map |
| `Matcher.RepeatedIdIsLost` | example/lib/ws_transport_example.dart:75-77 | two requests in flight with one id: the first gets neither its answer nor the disconnect |
| `Matcher.StreamsStep` | example/lib/ws_transport_example.dart:79-86 | a failed write, and nothing else, leaves the stream of an abandoned channel listened to |
| `Matcher.StreamsRun` | example/lib/ws_transport_example.dart:104-200 | over every run in which no write fails under a subscription, exactly the current subscription is listened to |
| `Matcher.OnlyCurrentStream` | example/lib/ws_transport_example.dart:153-189 | in such a run the only stream that can deliver messages or end is that of the current channel |
| `Matcher.StaleStreamEndsNewConnection` | example/lib/ws_transport_example.dart:187-200 | when that stream ends it takes down the connection made since, with its requests |
| `Matcher.InvRun` | example/lib/ws_transport_example.dart:59-207 | completers in the map are those of waiting calls, under their own ids, in every run |
| `WebSocket.WebSocketMpcTransport.EnsureConnected` | example/lib/ws_transport_example.dart:104-118 | returns at once on a channel, waits for an opener, or becomes the opener |
| `WebSocket.WebSocketMpcTransport.HandshakeOver` | example/lib/ws_transport_example.dart:124-151 | subscribes and releases the waiting calls, or fails them all |
| `WebSocket.WebSocketMpcTransport.SendRequest` | example/lib/ws_transport_example.dart:63-86 | registers under the id and writes; a failed write takes the entry out and drops the channel |
| `WebSocket.WebSocketMpcTransport.OnTimeout` | example/lib/ws_transport_example.dart:89-98 | removes the id and ends the call with a timeout |
| `WebSocket.WebSocketMpcTransport.HandleMessage` | example/lib/ws_transport_example.dart:153-181 | completes the call registered under the id, or ignores the message |
| `WebSocket.WebSocketMpcTransport.Disconnect` | example/lib/ws_transport_example.dart:191-200 | drops channel and subscription, completes every open completer with the error and clears the map |
| `WebSocket.WebSocketMpcTransport.CloseTransport` | example/lib/ws_transport_example.dart:203-207 | is a disconnect |

## Left out

- The libraries sl-dkls23, frost-ed25519, ceres_wallet_frost_mpc and `combine_shares`: their source is not part of this model; their answers are arguments, and a DKLs23 task is any sequence of sends, polls and an end.
- AES-GCM and HKDF backup envelopes, Keccak, curve points and randomness: opaque; nonces only have identities.
- Panics and poisoned mutexes, allocation failure, and calls that never return.
- MpcClient.Client.Keygen: that part 3 is refused on a state that has not been through part 2 is a hypothesis about the library, `Orderly`, and that the DKLs23 engine names its own curve is one about the oracle, `NamesSecp`; a session id that the FROST map held before the call is excluded where another engine ran round 1, since later rounds are then routed by that entry.
- MpcClient.Client.Recover: the optional new backup envelope, which only fills one more field of the result, is not modelled, nor are the DTO parsers and key renaming.
- FrostEngine.WholeSignRound1: serialisation of the reply after the session is stored is taken to succeed; the same holds for the replies of the other rounds.
- FrostEngine.WholeRecoverFinalize: the version wraps at the largest i32 as in a release build; a debug build panics there.
- FrostEngine.WholeRecoverRound2: `SESSION_TTL` is checked here only, as in the code; finalize, keygen and sign have no expiry to model.
- FrostSessions keeps the three FROST maps as one map keyed by operation and session id; a share is its verifying key, so that "either party's share" is any share with that key.
- TaskEngine.Sessions.NextRound: the contents of messages and the rotation version of DKLs23 recoveries are not modelled, and the export guard at sign round 1 is in `ExportGuard`; what injection and collection come to is an argument, `RelayConn` shows how.
- Relay.ReturnIsComplete: the last empty `try_recv` and the drop of the notification future are one action, so that what is sent between them counts as sent after the return.
- RelayConn.ChannelRelayConn.CollectBatch: the other actors act at the await points by a given schedule, and `Blocked` says that the schedule ran out while the call was waiting; the machine `Relay` has every finer interleaving.
- Envelope.ShareRoundTrip: general JSON is a reader and writer given as a parameter, assumed to read back what is written; `CompactJson` shows the assumption met for share envelopes.
- Sse covers the listed types; `()` and the optional i32 are instances with nothing to add.
- Address.DeriveEvmAddress: the hash function is any function with 32-byte results.
- WebSocket.WebSocketMpcTransport.HandleMessage: a binary frame that is not UTF-8, which throws inside the handler, is not modelled; timers fire as events, and the reconnect delay is unused in the code.
- ExportGuard.SignsButNotExportedIff: that the DKLs23 share parser refuses envelope bytes is a hypothesis about the library; `ReadFrom` says what is read without it.
- ExportGuard.ExportedKeys.ExportPrivateKey: whether reconstruction succeeds is a parameter; for ed25519 `Export` says when it does, for secp256k1 it is `combine_shares`, whose source is not part of this model.
- `exportPrivateKey` of the client, the FFI wire functions and dispatch tables, the generated Dart bindings, HTTP transport, logging, mocks, Flutter UI and build tooling.
