# Verified model of the orchestration control path

This project models, in Dafny, the path a workload takes through the orchestration platform: telemetry in, placement
decision, dispatch under a leader lease, idempotent execution on a node, audit. It proves what the path is for, over
all inputs and over whole runs. `dafny verify dfyconfig.toml` checks everything.

| files | what they model |
|---|---|
| `Etcd.dfy` | the key/value store with leases (`common/state.py`), and an eager lease specification that it refines |
| `SupplyChain.dfy`, `Node.dfy`, `Dispatch.dfy` | artifact registration and verification, the worker and its admission checks, the scheduler's election and fallback loop |
| `Cluster.dfy` | all of these as one step system: several schedulers, a monotone clock, envelopes in flight that may be delayed, repeated or dropped, lost replies, several nodes, other users of the store |
| `Fencing.dfy`, `Idempotence.dfy`, `Retry.dfy`, `Lapse.dfy`, `Simulation.dfy` | what every run of the cluster keeps, and what it does not; the last one ties the runs back to the dispatcher's loop |
| `Replay.dfy`, `Telemetry.dfy` | replay protection, and the telemetry stream from the signing sender to the snapshot store |
| `Hashing.dfy`, `Verifier.dfy`, `Ledger.dfy` | the hash-chained audit ledger, its independent verifier, and tamper evidence |
| `Filter.dfy`, `Scoring.dfy`, `TwoNodes.dfy`, `Ranking.dfy`, `Engine.dfy`, `Hysteresis.dfy` | the placement engine and its behaviour over whole runs |

Classes stand for the source's stateful objects. Each of their methods is specified by a function on values
(`Apply`, `Execute`, `Admission`, `Emitted`, `Receive`, `TakeUp`, `CheckFrom`, `Written`, `Scored`, ...), and the
lemmas are about these functions and about the step systems made of them. Clocks, nonces, execution times and outputs
are parameters. The hash function is a parameter too, and nothing is assumed about it but the length of its digests:
tamper evidence is the extraction of a collision, not injectivity. A signature is "signed by this key pair".

## Where the code and its documents disagree

The model follows the code.

* Section 7.4 of the architecture document says that a retry on a fallback node with the same idempotency key cannot
  execute a task twice. Keys are remembered per node, so that a lost reply can cause a second execution on the next
  node. `Retry.DoubleExecutionExactly` gives the exact condition from any state with a leader in office, for any form
  that registrations during the dispatch may have: two members of the chain may reach two different nodes that do not
  remember the key. `Retry.GatewayExactly` spells it out for the only registrations that the code makes, those of the
  gateway, which put every node at its own name and port 50051: two members have different nodes, each where it is
  registered now or at its own name, that do not remember the key. `Retry.AnyTargetExactly` is about arbitrary calls of
  the scheduler's `register_worker`, `Retry.FrozenTableExactly` about none. What does hold in general is
  `Idempotence.ExecutedAtMostOnce` and `Idempotence.FreshOncePerMember`.
* Section 6.4 of the security blueprint requires lease renewal and failover after expiry. The leader key is not tied to
  the lease, so that there is neither: one instance is elected, ever (`Fencing.OneLeaderEver`), and when its lease
  lapses no node admits anything and no dispatch is opened any more (`Fencing.LapseIsFinal`). Tasks that a node admitted before may
  still be executed, each admission once (`Lapse.LapseDrains`), and dispatches waiting for them may still succeed
  (`Lapse.LapsedWorkStillSucceeds`).
* Revocation is meant to stop a digest, but the format check ignores white space around it while registration and
  revocation keep it. Revoking the bare digest stops a record exactly if it was registered without white space
  (`SupplyChain.BareRevocationStopsExactly`); `SupplyChain.PaddedSpellingEscapes` gives an input that escapes.
* The snapshot store is meant to hold the latest telemetry of a node. Storing is outside the lock of the replay check, so
  that two overlapping streams of one node can leave an older snapshot in it (`Telemetry.OverlapShowsOlder`).
  `Telemetry.ShowsHighestExactly` says when that is excluded.
* The verifier does not notice that the end of a file was cut off (`Verifier.PrefixIsAccepted`).
* The exponential averages that the engine keeps influence no decision (`Engine.DecisionEngine.EvaluatePlacement`).

## Model

| member | source | states |
|---|---|---|
| `Etcd.SimulatedEtcdProvider.GrantLease` | common/state.py:42-49 | a new id, the next one, expiring `ttl` after now; nothing else changes |
| `Etcd.SimulatedEtcdProvider.RevokeLease` | common/state.py:51-54 | the lease is gone; nothing else changes |
| `Etcd.SimulatedEtcdProvider.IsLeaseValid` | common/state.py:56-63 | the answer, and that an expired entry is deleted by asking |
| `Etcd.SimulatedEtcdProvider.PutKeyWithLease` | common/state.py:65-71 | writes exactly if the lease is valid |
| `Etcd.SimulatedEtcdProvider.CompareAndSwap` | common/state.py:73-83 | writes exactly if the guard lease, if any, is valid and the present value, or absence, is the expected one |
| `Leases.StepRefines` | common/state.py:29-83 | every operation of the store with lazy expiry simulates the eager specification and answers the same |
| `Leases.LazyExpiryRefinesEager` | common/state.py:37-83 | in every run under a clock that never goes back, every answer is that of "granted, not revoked, now at most expiry" |
| `Leases.InvalidForever` | common/state.py:56-63 | a lease once reported invalid is reported invalid by every later query |
| `Leases.GrantsAreFresh` | common/state.py:42-49 | lease ids strictly increase over a run, whatever happens between two grants |
| `Leases.OneCreatorPerKey` | common/state.py:73-83 | between deletions of a key at most one compare-and-swap that expects absence succeeds |
| `Leases.LeaseLivesExactly` | common/state.py:42-63 | a lease granted for `ttl` seconds is reported valid up to then, unless it was revoked, and not afterwards; in terms of the operations alone |
| `SupplyChain.RegisterApprovedModel` | common/supply_chain.py:130-170 | succeeds exactly for immutable digests; the two keys written, and no write on failure |
| `SupplyChain.RevokeArtifactDigest` | common/supply_chain.py:173-187 | exactly one key is written, the one for the lower-case digest |
| `SupplyChain.SetSupplyChainPolicy` | common/supply_chain.py:124-127 | the policy read afterwards is the one that was set |
| `SupplyChain.KeysApart` | common/supply_chain.py:112-193 | policy, model, revocation and signing keys never coincide, for any ids |
| `SupplyChain.RegistrationRoundTrip` | common/supply_chain.py:130-308 | a registered artifact verifies, in any case of its digest, if and only if it is not revoked and the active policy admits its builder and its findings |
| `SupplyChain.ImmutableExactly` | common/supply_chain.py:28-36 | an immutable digest is "sha256:" in any case and 64 hexadecimal digits, with nothing but white space around it |
| `SupplyChain.VerifiesExactly` | common/supply_chain.py:196-308 | verification returns a record if and only if it is the stored one and the stored state approves it for what was asked: digest, revocation, signature, builder and counts, in no particular order |
| `SupplyChain.RefusalsAreReasons` | common/supply_chain.py:216-305 | every refusal names a condition that really fails |
| `SupplyChain.RevokedNeverVerifies` | common/supply_chain.py:253-258 | verification never returns a record whose digest is revoked, up to case |
| `SupplyChain.RevocationIsPermanent` | common/supply_chain.py:173-258 | nor after any later operations on the store other than deleting the revocation |
| `SupplyChain.RevocationStopsExactly` | common/supply_chain.py:173-258 | a revocation stops a record that verified before if and only if the digests agree up to case, and changes nothing for other records |
| `SupplyChain.BareRevocationStopsExactly` | common/supply_chain.py:32-36 | revoking the digest without the white space around it stops the record if and only if it was registered without any |
| `SupplyChain.PaddedSpellingEscapes` | common/supply_chain.py:141-160 | with the bare digest revoked, the digest after a space is registered and verifies |
| `Node.InferenceWorker.Run` | node_agent/worker.py:28-96 | cached answer, unavailable, rejected or fresh execution, in this order; failures leave the cache alone, successes are kept and only marked as cached later |
| `Node.ExecutesExactly` | node_agent/worker.py:28-96 | cached answer, unavailable, rejected or run, if and only if; the fields of a fresh result, and what is remembered |
| `Node.AdmitsExactly` | node_agent/grpc_server.py:45-78 | admission if and only if the envelope is signed by the published key, in time, and its lease is still valid; each abort if and only if its check is the first to fail |
| `Node.AnswersExactly` | node_agent/grpc_server.py:103-140 | the status tells result, rejection and failure apart, and the answer carries the error and the key |
| `Node.ExecutionServicer.ExecuteTask` | node_agent/grpc_server.py:39-164 | signature, expiry and lease decide admission in this order; an aborted call executes nothing; rejections and failures are answered, not raised |
| `Dispatch.TaskScheduler.constructor` | scheduler/dispatcher.py:34-61 | lease, then guarded election, then publication of the key; leader exactly if the swap succeeded |
| `Dispatch.TaskScheduler.RegisterWorker` | scheduler/dispatcher.py:75-81 | the address is replaced and the cached channel dropped, so that channels always lead to the latest address |
| `Dispatch.TaskScheduler.OpenChannel` | scheduler/dispatcher.py:83-96 | there is a channel exactly for nodes with an address, and it leads there |
| `Dispatch.ChainShape` | scheduler/dispatcher.py:114-119 | the chain repeats nobody, starts with the chosen node and holds exactly the nodes of the decision |
| `Dispatch.ChainInOrder` | scheduler/dispatcher.py:114-119 | the chain keeps the order in which the decision names its nodes |
| `Dispatch.RequestIsTheTask` | node_agent/grpc_server.py:85-101 | task, envelope and request carry the same ids, model, payload, key and timeout |
| `Dispatch.AnswersSucceedExactly` | scheduler/dispatcher.py:221-235 | a node's answer is a success for the dispatcher if and only if the execution had a result, and then this result is read from it |
| `Dispatch.TaskScheduler.BuildChain` | scheduler/dispatcher.py:114-119 | the loop builds that chain |
| `Dispatch.EmittedShape` | scheduler/dispatcher.py:130-188 | one envelope for each member tried that had an address at its attempt, sent there, to nobody else, all with the same lease and key, the task's ids, model, payload and timeout, its digest or else the registered one, and with the stated expiry |
| `Dispatch.TaskScheduler.OthersRegister` | gateway/grpc_server.py:61-64 | registrations by other threads, in their order, change the table of addresses and drop stale channels |
| `Dispatch.TaskScheduler.TryChain` | scheduler/dispatcher.py:127-270 | with registrations before every attempt: success comes from the member at position `attempts`, all earlier ones failed, fallback is reported exactly if `attempts` exceeds 1; failure means that everybody failed; what was sent where |
| `Dispatch.TaskScheduler.Run` | scheduler/dispatcher.py:98-270 | one lease check before the loop, not-leader and exhaustion if and only if, and leadership once lost is not regained; addresses are read anew at each attempt; the result is what the answer of the successful attempt says; if every reached node failed, exhaustion, and if one reported a result, success |
| `Fencing.NextFenced` | scheduler/dispatcher.py:40-188 | every step of every participant keeps the fencing invariant |
| `Fencing.OneLeaderEver` | scheduler/dispatcher.py:40-47 | in every run at most one scheduler instance is ever elected |
| `Fencing.MailIsTheLeaders` | scheduler/dispatcher.py:175-188 | every envelope in flight carries the elected instance's lease |
| `Fencing.DeliveryIsFenced` | node_agent/grpc_server.py:71-78 | a delivery is admitted only before the envelope's expiry and while its lease is granted, unrevoked and unexpired |
| `Fencing.AdmissionsAreFenced` | node_agent/grpc_server.py:45-78 | so it is in every run, for the lease and the published key of the one leader, although the scheduler checked its lease only before its loop |
| `Fencing.LapseIsFinal` | common/state.py:73-83 | after the lease has lapsed or was revoked nothing is admitted and no dispatch is opened, ever |
| `Lapse.LapseDrains` | node_agent/grpc_server.py:76-106 | every execution after that uses up an admission made before and not worked yet, and no admission is used twice |
| `Lapse.LapsedWorkStillSucceeds` | node_agent/grpc_server.py:76-106 | from any ready state a run in which a task is executed afresh, and its dispatch succeeds, after the lease was revoked |
| `Simulation.DispatchesFollowTheLoop` | scheduler/dispatcher.py:127-270 | a dispatch interleaved with everything else, registrations included, posts what the dispatcher's loop emits, goes on while nobody answers, and stops at the first answer, which a node gave to the envelope of that attempt |
| `Idempotence.ExecutedAtMostOnce` | node_agent/worker.py:28-96 | in every run a node executes a key afresh at most once, and every other success repeats the first result with only `cached` changed |
| `Idempotence.FailureLeavesNoTrace` | node_agent/worker.py:39-50 | a failed attempt changes no host |
| `Idempotence.FreshOncePerMember` | scheduler/dispatcher.py:114-261 | fresh executions of one dispatch are for different members of its chain, at different addresses |
| `Idempotence.RevocationReachesNodes` | node_agent/worker.py:31-50 | after the revocation of a digest no node starts a record with this digest, up to case, again; a success for it repeats an execution from before |
| `Idempotence.FreshIsApproved` | node_agent/worker.py:39-92 | in any state, a fresh execution is of a record that the store approves then for the model and digest in its envelope, on a healthy node |
| `Idempotence.TasksRunAsAsked` | node_agent/worker.py:45-92 | in every run, a fresh execution is for the task, key, payload and model of its dispatch, and of the digest that the task names, up to case |
| `Retry.DoublesNeedTwoPlaces` | scheduler/dispatcher.py:130-261 | two fresh executions of one dispatch need two members in its chain that may reach two different nodes that did not remember the key |
| `Retry.TwoPlacesCanExecuteTwice` | scheduler/dispatcher.py:244-261 | with these there is a run in which lost replies make two nodes execute, with only registrations of the given form |
| `Retry.DoubleExecutionExactly` | ai-workload-orchestration-architecture.md:248-250 | for any form that registrations have: double execution of a dispatch is possible, over all runs, if and only if two members of its chain may reach two different nodes that do not remember the key |
| `Retry.GatewayExactly` | gateway/grpc_server.py:61-64 | with registrations as the gateway makes them: if and only if two members have different nodes, where they are registered or at their own name and port, that do not remember the key |
| `Retry.AnyTargetExactly` | scheduler/dispatcher.py:75-81 | with arbitrary registrations through the scheduler's interface: if and only if the chain has two members and two nodes do not remember the key |
| `Retry.FrozenTableExactly` | scheduler/dispatcher.py:83-86 | without registrations, all registered nodes being usable: if and only if the members of the chain with an address have more than one |
| `Retry.OfficeIsTaken` | scheduler/dispatcher.py:34-61 | the states that the previous row speaks of are reached from the empty cluster |
| `Replay.ReplayProtectionState.ValidateAndRecord` | telemetry/replay_state.py:14-52 | the answer and the whole new state, including the clearing of the nonces |
| `Replay.ExactWindow` | telemetry/replay_state.py:29-52 | after n acceptances the high-water mark is the last and largest sequence number and the nonces are exactly those of the last ((n-1) mod 1000)+1 acceptances |
| `Replay.AcceptedExactlyWhen` | telemetry/replay_state.py:19-40 | acceptance if and only if in time, within skew, above all accepted sequence numbers and with a nonce outside the window |
| `Replay.NeverTwice` | telemetry/replay_state.py:29-52 | no sequence number of a node is accepted twice, at any distance |
| `Telemetry.TelemetryStreamer.SignTelemetry` | node_agent/grpc_client.py:41-95 | the counter goes up by one, and the envelope carries it, ten seconds of lifetime and the node's key |
| `Telemetry.TelemetryServicer.Examine` | gateway/grpc_server.py:82-125 | unknown nodes and replays are skipped, replay state is recorded before the signature is checked, an unreadable payload breaks the stream; the store is not touched yet |
| `Telemetry.TelemetryServicer.Keep` | gateway/grpc_server.py:127 | the node's snapshot is replaced, whatever was there |
| `Telemetry.TelemetryServicer.StreamTelemetry` | gateway/grpc_server.py:77-135 | the loop over a stream that no other one overlaps |
| `Telemetry.StreamKeepsGoodLetters` | gateway/grpc_server.py:82-135 | a fresh receiver keeps exactly the genuine, timely letters above all accepted numbers and with new nonces, up to the first such letter that is garbled; it answers with success if and only if there is none, and shows the last one kept of each node |
| `Telemetry.StreamIsRun` | gateway/grpc_server.py:82-127 | from any reachable state, a stream handled alone is a run of the step system in which each arrival is finished before the next, so that what follows holds of the loop |
| `Telemetry.StoredWasSentOnce` | gateway/grpc_server.py:82-127 | over a channel that loses, repeats and reorders, with foreign telegrams and overlapping streams: what is stored was sent by the node it names, and no number of a node is stored twice |
| `Telemetry.ShowsHighestExactly` | gateway/grpc_server.py:94-127 | after any run the store is sure to show a node's highest number, in whatever order telegrams in hand get stored, if and only if it does now and at most one telegram of the node is in hand, a newer one |
| `Telemetry.OverlapShowsOlder` | gateway/grpc_server.py:94-127 | a run in which two streams overlap after a reconnect and the store ends up with the older snapshot |
| `Telemetry.StoredIsSubsequenceOfSent` | gateway/grpc_server.py:82-127 | if no two telegrams of a node are in hand at once, what is stored for it is a subsequence of its sends with increasing sequence numbers, across reconnects |
| `Telemetry.StoreShowsHighest` | gateway/grpc_server.py:112-127 | then the store shows, for this node, the stored snapshot with the highest sequence number |
| `Telemetry.TakenUpExactly` | gateway/grpc_server.py:94-107 | after any run, a genuine telegram is taken up if and only if it is readable, in time, above every accepted number of its node, foreign ones included, and its nonce is not remembered |
| `Telemetry.EverySendIsStored` | node_agent/grpc_client.py:97-142 | over a channel that loses nothing and brings each node's telegrams in order, in time and within skew, with nonces that differ, among foreign telegrams that do not run ahead: once nothing is in hand, the store has kept exactly the sends |
| `Telemetry.LossFreeInOrderIsStored` | node_agent/grpc_client.py:97-142 | the plain case, in which everything is delivered once in the order of sending, with conditions on the sends and the deliveries only |
| `Telemetry.RecordedNumberShutsOut` | telemetry/replay_state.py:29-33 | a number recorded once makes all telegrams of the node up to it be refused in all later runs |
| `Telemetry.ForeignNumberShutsOut` | gateway/grpc_server.py:94-107 | one timely telegram that the node did not sign does this to the node's own telegrams, because recording comes before the signature check |
| `Hashing.NoObjectEndsAnother` | results_aggregator/ledger.py:66-75 | no JSON object is a proper suffix of another one |
| `Hashing.StringsMayHoldBraces` | results_aggregator/ledger.py:70 | braces and escaped quotes in strings do not count for the nesting |
| `Hashing.InputIsUnambiguous` | results_aggregator/ledger.py:72-75 | the hashed bytes determine the previous hash and the event, although nothing separates them |
| `Verifier.VerifyLedger` | tools/verify_audit.py:22-70 | verdict and reported problems of the loop |
| `Verifier.AcceptsExactlyIntactFiles` | tools/verify_audit.py:29-70 | true if and only if every line parses, links to its predecessor's hash and matches its own; resynchronising hides nothing |
| `Verifier.ReportsExactly` | tools/verify_audit.py:33-63 | for any decodable file: a problem is reported if and only if the line is no JSON, or does not link to the hash calculated for the last event before it, or does not match its own hash; with its line number |
| `Verifier.RaisesExactly` | tools/verify_audit.py:47-55 | the verifier raises if and only if some line's hashes cannot be decoded |
| `Verifier.PrefixIsAccepted` | tools/verify_audit.py:33-67 | every prefix of an accepted file is accepted |
| `Verifier.BlankLinesDoNotCount` | tools/verify_audit.py:34-39 | blank lines change neither report nor numbering |
| `Verifier.RewrittenBody` | tools/verify_audit.py:54-63 | rewriting one event's body gives exactly two errors, at its line and the next (one if last), unless the hashes coincide |
| `Verifier.RemovedEvent` | tools/verify_audit.py:47-51 | removing one event gives exactly one error, none at the end |
| `Verifier.SwappedEvents` | tools/verify_audit.py:47-63 | exchanging neighbours gives exactly three errors, two at the end |
| `Ledger.TamperEvidentLedger.constructor` | results_aggregator/ledger.py:20-41 | the file is created or left alone and the last hash recovered from it |
| `Ledger.TamperEvidentLedger.RecoverState` | results_aggregator/ledger.py:43-62 | the hash stated on the last line that is not blank, even if the link stated there cannot be decoded; nothing if the hash itself cannot be |
| `Ledger.RecoveredExactly` | results_aggregator/ledger.py:50-62 | the last line that is not blank decides about the recovered hash, and nothing before it |
| `Ledger.TamperEvidentLedger.Append` | results_aggregator/ledger.py:78-94 | one linked line is added; a checkpoint over exactly the pending leaves is created exactly when they fill a batch; checkpoints and pending leaves partition what was appended |
| `Ledger.TamperEvidentLedger.AddLeaf` | results_aggregator/ledger.py:85-94 | the part of it that concerns leaves and checkpoints |
| `Ledger.TamperEvidentLedger.CreateCheckpoint` | results_aggregator/ledger.py:96-120 | root over the concatenated leaves, published under the number made of four bytes of the last leaf; counter and leaves reset |
| `Ledger.PartitionGrows` | results_aggregator/ledger.py:85-94 | full batches and less than a batch of pending leaves make up all that was appended, in order, after each append |
| `Ledger.WriterAgreesWithVerifier` | results_aggregator/ledger.py:43-94 | after any appends and restarts on an accepted file the verifier accepts it, and the writer's last hash is the one on its last event |
| `Ledger.AppendsAreKept` | results_aggregator/ledger.py:78-94 | after any appends and restarts the file holds what it held and one event per append, in order: the appended event itself, with the hash stated before it as its link, and hashed with it |
| `Ledger.LeavesFromConcat` | results_aggregator/ledger.py:100-104 | the concatenation of digests determines them |
| `Ledger.RootBindsBatch` | results_aggregator/ledger.py:100-104 | equal roots mean equal batches, or two different strings with one digest |
| `Ledger.LeafPlace` | results_aggregator/ledger.py:100-104 | each leaf is at its own place in what the root hashes |
| `Ledger.NumberHasDigits` | results_aggregator/ledger.py:108 | a checkpoint's number has the first four bytes of its last leaf as digits, the first one the highest |
| `Ledger.NumbersCollideExactly` | results_aggregator/ledger.py:108-115 | two checkpoints have the same name if and only if their last leaves begin with the same four bytes |
| `TamperEvidence.WalkBack` | tools/verify_audit.py:9-20 | walking back from a common hash finds a collision, or reaches the start of both chains at once with equal events |
| `TamperEvidence.SameHistoryOrCollision` | tools/verify_audit.py:22-70 | two accepted non-empty files of any lengths that end in the same hash hold the same events, or contain two different inputs with one hash |
| `TamperEvidence.SameHistoryOrShaCollision` | results_aggregator/ledger.py:64-76 | for events in canonical JSON that collision is one of the underlying hash function on byte strings |
| `Filter.PassingNodes` | decision_engine/filter.py:46-94 | passing means violating none of the eight constraints, each stated by itself with its numbers, whatever their order |
| `Filter.FirstViolationIsReported` | decision_engine/filter.py:47-92 | the reason given is about the first constraint violated, and quotes the node rightly |
| `Filter.Survivors` | decision_engine/filter.py:94-96 | exactly the candidates that pass |
| `Filter.SurvivorsInOrder` | decision_engine/filter.py:46-96 | candidates pass or fail one by one and keep their order |
| `Filter.RejectionsAreTheFailures` | decision_engine/filter.py:47-92 | everybody else is reported, with the first check that failed |
| `Filter.FilterCandidates` | decision_engine/filter.py:33-96 | the loop computes both |
| `Scoring.NormalizeMetric` | decision_engine/normalizer.py:15-29 | the loop-free normalisation over the least and greatest value |
| `Scoring.NormalizedInOrder` | decision_engine/normalizer.py:15-29 | normalised values lie in [0, 1] and keep the order, with and without spread |
| `Scoring.PoolInProportion` | decision_engine/normalizer.py:24-46 | in a pool of any size, each metric of a node is in proportion to its round-trip time, reciprocal bandwidth, greater utilisation, queue and cost, between the least and the greatest one |
| `Scoring.LastSnapshotCounts` | decision_engine/normalizer.py:42-46 | of several snapshots of a node the last one counts |
| `Scoring.NormalizeCandidates` | decision_engine/normalizer.py:31-65 | all five dimensions of every candidate, reciprocal bandwidth included |
| `Scoring.Round6Near` | decision_engine/scorer.py:22 | rounding moves a score by at most half a millionth |
| `Scoring.NearestExactly` | decision_engine/scorer.py:22 | rounding goes to the nearest integer number of millionths, to the even one in the middle |
| `Scoring.Round6Monotone` | decision_engine/scorer.py:22 | rounding keeps the order |
| `Scoring.ScoresInRange` | contracts/sla_profiles.py:16-27 | every score lies in [0, 1.001] |
| `TwoNodes.GreatestScore` | decision_engine/scorer.py:13-22 | the greatest score that any pool can give is the rounded sum of the weights, and a pool gives it |
| `TwoNodes.AboveOneExactly` | contracts/sla_profiles.py:22-27 | some pool scores above 1 if and only if the rounded sum of the weights exceeds 1 |
| `TwoNodes.BoundIsReached` | contracts/sla_profiles.py:22-27 | two nodes and accepted weights that score 1.001 |
| `TwoNodes.PairPool` | decision_engine/normalizer.py:15-65 | in a pool of two, each normalised value is 0 or 1 |
| `TwoNodes.PairScoresExactly` | decision_engine/scorer.py:13-22 | in a pool of two, a node scores the rounded sum of the weights of just those dimensions in which it is the worse one |
| `Scoring.DominantScoresLower` | decision_engine/scorer.py:13-22 | a node that is no worse in every dimension scores no higher |
| `Ranking.RankingUnique` | decision_engine/scorer.py:37-39 | scores determine their ranking |
| `Ranking.RankingPlaces` | decision_engine/scorer.py:37-39 | place k belongs to the node with exactly k others ahead, by score and then by id |
| `Text.LessExactly` | decision_engine/scorer.py:37-38 | ids are compared by their first different character, a proper prefix being smaller |
| `Ranking.RankCandidates` | decision_engine/scorer.py:24-39 | the list of scores, sorted, is that ranking, whatever the order of the dictionary |
| `Engine.DecisionEngine.UpdateSlaProfiles` | decision_engine/engine.py:42-45 | the profiles given replace theirs, all others stay |
| `Engine.DecisionEngine.EvaluatePlacement` | decision_engine/engine.py:80-168 | static decision exactly if nobody survives; otherwise choice, runner-up, chain and reasons as functions of the survivors, without the averages; the averages after the cycle |
| `Engine.DecisionMeans` | decision_engine/engine.py:111-154 | the chosen node's own score, the node with one other ahead as runner-up, the nodes with none, one and two ahead as chain, the reasons and weights given |
| `Engine.StaticDecisionMeans` | decision_engine/engine.py:47-78 | the chain of the demanded zone in any case, or else the default one; its first node is chosen, its second is the runner-up |
| `Engine.DefaultProfiles` | contracts/sla_profiles.py:40-71 | a class without a profile has its default weights, which are valid, sum up to 1 and favour latency, or cost for batch |
| `Engine.OrderAndRejectsDoNotMatter` | decision_engine/engine.py:91-138 | permuting candidates, or adding and removing nodes that fail a constraint, changes nothing but the reported reasons |
| `Engine.DominantRanksAhead` | decision_engine/scorer.py:32-39 | a node that is no worse in every dimension ranks ahead unless rounded scores tie and the other id is smaller |
| `Engine.ChosenIsNearlyOptimal` | decision_engine/engine.py:109-113 | without an incumbent the chosen node's weighted sum is within a millionth of the least |
| `Engine.IncumbentWithinMargin` | decision_engine/engine.py:111-124 | the best node is chosen, or the incumbent, worse by less than the margin; an incumbent that is left was beaten by the margin |
| `Engine.TriedNodesPassed` | decision_engine/engine.py:135-136 | a scored decision makes dispatch try at most four different nodes, all of which passed every constraint |
| `Engine.AverageStaysBetween` | decision_engine/engine.py:126-133 | a node has an average exactly if it was scored, between the least and greatest score observed |
| `Engine.AverageConverges` | decision_engine/engine.py:128-131 | under a constant score the distance is exactly (1-alpha)^n times the first one, n counting only the cycles that scored the node |
| `Hysteresis.SwitchDescends` | decision_engine/engine.py:115-124 | a switch lowers the pair of lowest score and node id |
| `Hysteresis.NeverReturns` | decision_engine/engine.py:111-124 | in a run that feeds choices back as incumbents and in which scores vary by less than the margin, no node is returned to |
| `Hysteresis.SwitchesAreBounded` | decision_engine/engine.py:111-124 | such a run of any length switches at most n-1 times among n nodes |
| `Hysteresis.EngineSettles` | decision_engine/engine.py:80-154 | both, for runs of the engine over lists of snapshots, through filter, scoring and choice |
| `Hysteresis.FlapsAtTheMargin` | decision_engine/engine.py:80-124 | with a variation equal to the margin, two nodes that pass every constraint make the engine switch in every cycle of runs of any length, under all weights that admit such scores |
| `Hysteresis.DefaultsFlap` | contracts/sla_profiles.py:41-47 | the default real-time weights with the default margin 0.10 are such a case, 0.45 against 0.50 |

## Left out

- gRPC, TLS, SPIFFE identities, AES-GCM, Ed25519 and post-quantum signatures: library calls; an envelope is "signed by" a key pair, and the `dual_required` policy only adds checks.
- Messages altered in transit: the telemetry signature covers the payload and not the sequence number, nonce and times, so that the end-to-end statements are for a channel that loses, repeats and reorders, plus telegrams not signed by the node they name. In the same way the signature on a task envelope covers its encrypted payload and key, and neither lease id nor expiry.
- Concurrent calls of `execute` on one worker: it holds no lock, and one call at a time is modelled. Registrations by other threads happen between attempts of a dispatch, not within the opening of a channel.
- Retry.FrozenTableExactly: assumes that nobody registers an address during the dispatch; what the gateway can register is in `Retry.GatewayExactly`.
- Telemetry.TelemetryServicer.StreamTelemetry: one stream without overlap; overlapping streams are interleavings of `Examine` and `Keep` in the step system.
- Two clock readings within one admission: expiry and lease are checked at the same instant.
- JSON and hex syntax: a file is a sequence of lines that are blank, not JSON, not decodable or events, and stored values are seen through the parser of their readers. Of canonical JSON only the nesting of brackets and strings is modelled.
- Case folding and white space beyond ASCII, and PEM data that cannot be parsed.
- `clear()` of the store and of the ledger: resets for tests that end the runs considered here.
- Deletion or overwriting of the leader key by other users of the store: excluded from the cluster's runs, since then election has no meaning.
- Two ledger objects alive on one file, a ledger with a corrupt last line at recovery beyond the value recovered, `get_all`, the signature of checkpoints, and their storage in etcd (they are kept by number, and numbers may repeat).
- Residency under the static fallback policy: the configured policy has no entry for every zone, so that nothing is promised there.
- IEEE rounding: scores, times and averages are exact reals, with an explicit rounding to six places.
- `previous_message_hash` in telemetry: the receiver never reads it.
- A restart of a node agent: it would reset the telemetry counter, so that its telemetry would be refused until the counter has caught up, and it would empty the idempotency cache, so that `Idempotence.ExecutedAtMostOnce` is about the lifetime of a worker. Only reconnects are modelled.
- Order of keys in a dictionary that decide nothing, elapsed times, log messages, metrics, SBOM generation, the Redis store, the HTTP gateway and the inspector.
- Hysteresis.SwitchesAreBounded: no node has the empty id, because an empty incumbent is ignored by the source.
- Dispatch.TaskScheduler.Run: the network is the parameter `world`; that it is a real one is what `Simulation.DispatchesFollowTheLoop` states for the cluster. A caller that keeps and changes the dictionary of targets it passed in is not modelled.
