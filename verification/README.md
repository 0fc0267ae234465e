# Pathweave: a verified model of the mesh core

Pathweave carries messages between nodes over whatever links they have: it encrypts each hop,
retries until a receiver acknowledges, suppresses duplicates, floods messages through a mesh with
a hop budget, gossips public keys, and stores messages for peers that are away. This project models
that core in Dafny and proves what it promises, over every run of the protocols and every
interleaving, and not only call by call.

`dafny verify dfyconfig.toml` checks everything.

## What is modelled

- **Nodes.** `Dedup`, `KeyRegistry`, `Wire` and `Node` are the objects of one node, as classes whose
  methods change their fields in place, each proved against a specification function. `Dedup` and
  `KeyRegistry` are further proved equal to simple references: the full history of checks, and a
  ledger of when each key was learned.
- **The mesh.** `Mesh` is a transition system: any set of nodes with any peer tables, copies of
  messages in flight, a clock. Origination, arrival, retries, losses, forged frames, handshakes and
  the passing of time interleave freely. What a node object writes to the router is the same as what
  the mesh puts in the air (`Mesh.RelayIsCopies`). `Flood` projects a run onto one message id, and
  `FloodSafety`, `FloodDelivery`, `FloodDieOut`, `MeshTheorems`, `FloodThreshold`, `KeyAgreement`,
  `SealedDelivery` and `AnnounceDelivery` prove the properties of whole runs.
- **One send.** `Router` is the choice of transports and the retry loop. `AtLeastOnce` lets the
  sessions of all tries of one send, their receivers and other traffic interleave over lossy FIFO
  channels; `SendOutcome` proves what the outcome says about the handler, and `SessionServing` that the
  receivers of this model do what the node object does.
- **Store and forward.** `StoreForward` is the queue object and a model in which calls and drains
  for all destinations interleave; `StoreForwardOrder`, `StoreForwardExact` and `StoreForwardRuns`
  treat order and depth.
- **Bytes.** `Bundle`, `Reassembly`, `BundleLayer` and `BundleEndToEnd` cover fragmentation (RFC 9171
  sections 5.8 and 5.9, with CBOR head sizes from RFC 8949 section 3), `AddrExchange` the
  address-exchange codec, and `Advertising` the demultiplexer of the BLE advertising transport.

Cryptography is symbolic: a hash from keys to peer ids, injective where a lemma says so, and an
unsealing function. Clock readings, random ids, which sends succeed and what links deliver are
parameters or nondeterministic steps. Times are in whole seconds.

## Where the code and its documents disagree

The model follows the code; each disagreement is proved, with the exact condition.

- `notes/decisions/019-mesh-routing.md:118-119` says every reachable node receives a flood exactly
  once, regardless of topology. A copy that arrives first over a long way uses up the id and then
  dies of its hop budget, so this holds for all topologies exactly up to eight nodes
  (`FloodThreshold.DeliveryThreshold`); beyond that it holds within eight links when copies are
  handled in hop order (`MeshTheorems.HopOrderDelivers`). A budget of seven allows eight links, because
  the destination is tested before the budget.
- `notes/architecture/ARCHITECTURE.md:499-500` says a link never sees a message larger than its MTU.
  The overhead estimate leaves out the growth of the chunk-length head; `Bundle.WithinMtu` gives the
  exact condition and `Bundle.MtuExceeded` a case that fails.
- `notes/decisions/021-store-and-forward.md:60-61` says drains preserve FIFO order. A run keeps a queue
  in push order if and only if every put-back finds only younger entries queued
  (`StoreForwardExact.OrderExactly`). Drains that do not overlap, or that return youngest first, do so;
  others need not. Likewise the configured depth is kept if and only if every put-back finds room
  (`StoreForwardExact.DepthExactly`).
- A send that returns success can have delivered nothing: any message counts as the acknowledgement,
  so an address-exchange reply later than its two-second wait is taken for one. Success can be relied
  on if and only if the message taken is not that reply (`SendOutcome.ReliableExactly`).
- A sealed message whose first copy arrives before its sender's key is lost, and its id used up: the
  id is recorded before the key is looked up. The handler runs if and only if the destination holds a
  key that opens the message when it takes the first copy (`SealedDelivery.SealedCallsExactly`).

## Model

| member | source | states |
|---|---|---|
| Dedup.DeduplicationCache.CheckAndInsert | crates/pathweave-core/src/node.rs:51-65 | prunes what has outlived the window, answers whether the (sender, id) pair is still held, and records it otherwise |
| Dedup.DeduplicationCache.CheckAndInsertRouted | crates/pathweave-core/src/node.rs:71-84 | the same for routed ids, keyed by id alone and leaving the direct map untouched |
| Dedup.AnswersHistory | crates/pathweave-core/src/node.rs:51-84 | with a non-decreasing clock a check answers "duplicate" exactly when some earlier accepted check of the key is younger than the window |
| Dedup.CacheRefinesHistory | crates/pathweave-core/src/node.rs:51-84 | after any sequence of checks the lazily pruned map holds exactly the keys accepted within the last window, each with its acceptance time |
| Dedup.AcceptedApart | crates/pathweave-core/src/node.rs:51-84 | two acceptances of one key are at least a window apart |
| KeyRegistry.KeyRegistryState.RemoveKey | crates/pathweave-core/src/lib.rs:338-341 | forgets a key and its place in the eviction queue, returning the old key |
| KeyRegistry.KeyRegistryState.InsertDirectKey | crates/pathweave-core/src/lib.rs:347-350 | stores a key confirmed by handshake, takes it out of the eviction queue, and says whether it was new |
| KeyRegistry.KeyRegistryState.InsertGossipKey | crates/pathweave-core/src/lib.rs:355-376 | overwrites a known key, evicts the head of the queue when full, and drops the insert when full with nothing to evict |
| KeyRegistry.KeyRegistryState.Retain | crates/pathweave-core/src/lib.rs:338-350 | the queue without one peer, the order of the others kept |
| KeyRegistry.RegistryRefinesLedger | crates/pathweave-core/src/lib.rs:338-376 | after every sequence of operations the registry holds the ledger's keys, and its duplicate-free queue is exactly the never-promoted gossip entries in the order they were learned |
| KeyRegistry.HeadIsOldest | crates/pathweave-core/src/lib.rs:355-376 | the entry that would be evicted is the one and only oldest never-promoted gossip entry |
| KeyRegistry.DirectEntriesStay | crates/pathweave-core/src/lib.rs:338-376 | an entry confirmed by handshake stays through any operations but its own removal |
| KeyRegistry.ApplyValid | crates/pathweave-core/src/lib.rs:338-376 | every operation keeps the queue duplicate-free, within the keys, and within the size bound |
| KeyRegistry.GossipBounded | crates/pathweave-core/src/lib.rs:355-376 | a gossip insert never takes the size above the larger of what it was and the bound |
| Wire.ParseEncode | crates/pathweave-core/src/router.rs:777-779 | what the receiver makes of the bytes a sender frames is the message that was sent, for all four kinds of frame |
| Wire.EncodeParse | crates/pathweave-core/src/node.rs:998-1142 | bytes that are accepted at all are exactly the encoding of what they are taken for |
| Node.PathweaveNode.DispatchPayload | crates/pathweave-core/src/node.rs:986-1222 | handling any payload has exactly the effect on caches, registry, handler and relays that the specification gives its parse, and every payload, even a malformed one, is acknowledged once |
| Node.PathweaveNode.HandleDirect | crates/pathweave-core/src/node.rs:1010-1023 | calls the handler unless the (sender, id) pair is a duplicate |
| Node.PathweaveNode.HandleRouted | crates/pathweave-core/src/node.rs:1024-1078 | clamps the budget, delivers at the destination, drops an exhausted frame before the cache sees it, otherwise relays first copies with one hop less |
| Node.PathweaveNode.HandleAnnouncement | crates/pathweave-core/src/node.rs:1079-1125 | ignores forged or malformed announcements, stores first copies and relays them while the budget lasts; what that comes to is stated from the inputs by AnnounceDelivery.AnnouncementLearned and AnnouncementIgnored, and over whole runs by SmallMeshLearns and HopOrderLearns |
| Node.PathweaveNode.HandleSealed | crates/pathweave-core/src/node.rs:1126-1215 | like a routed frame, but delivery also needs the sender's key and a successful unsealing |
| Node.PathweaveNode.HandleIncoming | crates/pathweave-core/src/node.rs:887-937 | a session takes in the addresses of a leading frame of eight bytes or more that starts with zero, answers with its own even if that frame does not decode, and dispatches and acknowledges everything else in order; made precise by Node.DirectInOrder, Node.RoutedGoesOn and SessionServing.SessionAsHandled |
| Node.DirectInOrder | crates/pathweave-core/src/node.rs:911-936 | direct messages whose ids are new each reach the handler once, in the order they arrive, and nothing is relayed |
| Node.RoutedGoesOn | crates/pathweave-core/src/node.rs:1030-1073 | whatever a session brought before, a routed message for somebody else whose id is new goes on at once to every peer but its sender and the node, with one hop less of at most seven |
| SessionServing.SessionAsHandled | crates/pathweave-core/src/node.rs:887-937 | a session served message by message in the interleaved model leaves the node, the handler calls, the reply and the acknowledgements of the node object's HandleIncoming on the same arrivals |
| Node.PathweaveNode.UpsertPeerAddresses | crates/pathweave-core/src/router.rs:620-632 | a peer's addresses are those known, in order, followed by the new ones, none twice; an unknown peer enters the table |
| Node.MergedInOrder | crates/pathweave-core/src/router.rs:620-632 | the new addresses of a peer come in the order in which they were first told |
| Node.PathweaveNode.SpawnRelayToNeighbors | crates/pathweave-core/src/node.rs:945-983 | relays to every known peer but the sender and the node itself |
| Node.PathweaveNode.FloodNeighbors | crates/pathweave-core/src/node.rs:385-422 | sends to every known peer but the node itself; accepted if and only if some such send is, no transport if and only if there is no such peer, delivery failed otherwise |
| Node.PathweaveNode.SendRouted | crates/pathweave-core/src/node.rs:377-423 | floods the routed frame with a full hop budget, with the same three results |
| Node.PathweaveNode.SendRoutedSealed | crates/pathweave-core/src/node.rs:432-490 | reports an unknown key exactly when the registry has none and then sends nothing; otherwise floods the sealed frame under the node's own identity, with the same three results |
| Node.PathweaveNode.FloodKeyAnnouncement | crates/pathweave-core/src/router.rs:673-714 | announces a learned key with a full hop budget to every known peer but its owner and the node itself |
| Mesh.RelayIsCopies | crates/pathweave-core/src/node.rs:945-983 | the bytes a node object sends when it relays, originates or announces a key are parsed by their receivers as exactly the copies the mesh model puts in the air, one per target |
| Mesh.SendsAreCopies | crates/pathweave-core/src/node.rs:385-416 | the same for any table of distinct peers |
| Flood.RunProjects | crates/pathweave-core/src/node.rs:1024-1213 | within a dedup window, every run of the whole mesh, seen through one message id, is a run of the small per-id flood system |
| Flood.StepProjects | crates/pathweave-core/src/node.rs:1024-1213 | every single step of the mesh is the corresponding flood move, or none |
| MeshTheorems.FloodIsSafe | crates/pathweave-core/src/node.rs:1030-1213 | in every run: each copy in flight carries the original destination and payload on a neighbour walk whose hops and remaining budget add up to eight; the handler runs at most once in the whole network, only at the destination, with the routed payload sent (for sealed frames with something the message opens to, made precise by SealedDelivery.SealedPayload); each node relays at most once; sends are at most the origin's degree plus all degrees |
| MeshTheorems.SmallMeshDelivers | crates/pathweave-core/src/node.rs:1024-1078 | in a mesh of at most eight nodes, for every topology, order and duplication, a lossless flood gone quiet in its window has been recorded by every other node the peer tables lead to, and has reached the handler if it was not sealed; sealed frames: SealedDelivery.SealedSmallMeshDelivers |
| MeshTheorems.HopOrderDelivers | crates/pathweave-core/src/node.rs:1037-1063 | in a mesh of any size, handling copies in hop order does the same for every node within eight links; sealed frames: SealedDelivery.SealedHopOrderDelivers |
| FloodThreshold.DeliveryThreshold | notes/decisions/019-mesh-routing.md:118-119 | delivery over paths of at most eight links, regardless of topology and order, holds for a set of nodes if and only if there are at most eight |
| FloodThreshold.KiteUndelivered | crates/pathweave-core/src/node.rs:1037-1073 | among any nine nodes a concrete lossless flood goes quiet without reaching a node that a path of six links leads to |
| FloodDelivery.NoHarmfulDrop | crates/pathweave-core/src/node.rs:1042-1049 | in a mesh of at most eight nodes a copy out of budget only ever arrives at the destination or at a node that has already recorded the id |
| FloodDelivery.SmallMeshReaches | crates/pathweave-core/src/node.rs:1024-1078 | the per-id form of delivery in small meshes |
| FloodDelivery.HopOrderReaches | crates/pathweave-core/src/node.rs:1037-1063 | the per-id form of delivery in hop order |
| FloodSafety.SafeFlow | crates/pathweave-core/src/node.rs:1030-1213 | the safety invariant is kept by every run of flood moves |
| FloodSafety.DegreesBounded | crates/pathweave-core/src/node.rs:385-416 | nodes that relay at most once each send at most the sum of all degrees |
| FloodDieOut.FloodsDieOut | crates/pathweave-core/src/node.rs:1034-1213 | for routed, sealed and announcement frames alike, and even if cache entries expire at any moment, the copies ever handled plus the weight still in flight never exceed the initial weight plus what origins and retries add |
| FloodDieOut.RelaysLighter | crates/pathweave-core/src/node.rs:1057-1063 | the copies a node sends on weigh strictly less than the copy it handled |
| KeyAgreement.RunBound | crates/pathweave-core/src/router.rs:664-666 | in every run, forged announcements included, every stored key hashes to its peer id |
| KeyAgreement.KeysAgree | crates/pathweave-core/src/lib.rs:347-376 | with an injective hash no two nodes, and no node at two moments, hold different keys for one peer |
| KeyAgreement.SealedCallsAuthentic | crates/pathweave-core/src/node.rs:1139-1180 | a sealed message reaches the handler only under a key that hashes to the peer it is attributed to |
| AnnounceDelivery.AnnouncementLearned | crates/pathweave-core/src/node.rs:1079-1125 | a valid announcement not accepted within the window is stored unless the registry is full of keys confirmed by handshake, recorded, and relayed with one hop less of at most seven while its budget lasts |
| AnnounceDelivery.AnnouncementIgnored | crates/pathweave-core/src/node.rs:1079-1125 | a forged announcement changes nothing, a repeated one teaches nothing, and neither goes further |
| AnnounceDelivery.AnnouncementIsSafe | crates/pathweave-core/src/node.rs:1079-1125 | in every run the copies in flight carry the announced peer and key, and each node relays them at most once |
| AnnounceDelivery.RecordedMeansLearned | crates/pathweave-core/src/node.rs:1087-1098 | a node that keeps its keys and has recorded the announcement holds exactly the announced key |
| AnnounceDelivery.SmallMeshLearns | crates/pathweave-core/src/router.rs:673-714 | in a mesh of at most eight nodes, for every topology, order and duplication, a lossless announcement gone quiet in its window has taught the key to every other node the peer tables lead to, apart from the origin's own link to the key's owner |
| AnnounceDelivery.HopOrderLearns | crates/pathweave-core/src/router.rs:673-714 | in a mesh of any size, handling copies in hop order does the same for every node within eight links |
| SealedDelivery.SealedCallsExactly | crates/pathweave-core/src/node.rs:1139-1180 | a sealed flood reaches the handler if and only if the destination, when it took its first copy, held a key of the sender that opens the message; then once, with what that key yields; the id is recorded either way |
| SealedDelivery.SealedPayload | crates/pathweave-core/src/node.rs:1139-1180 | with a collision-free hash, and forged announcements included, the handler is only called as from the true sender and with what the sender sealed, exactly when the sender's key was known at the first copy |
| SealedDelivery.SealedEndToEnd | crates/pathweave-core/src/node.rs:432-490 | what SendRoutedSealed seals under the registered key of the destination is exactly what the handler there gets, given that unsealing inverts sealing |
| SealedDelivery.RecordedMeansOpened | crates/pathweave-core/src/node.rs:1139-1180 | if a handshake has confirmed the sender's key at the destination and it is not forgotten, a recorded sealed message has reached the handler, once, with the plaintext |
| SealedDelivery.SealedSmallMeshDelivers | crates/pathweave-core/src/node.rs:1126-1215 | so in meshes of at most eight nodes a quiet lossless sealed flood has run the handler once with the plaintext |
| SealedDelivery.SealedHopOrderDelivers | crates/pathweave-core/src/node.rs:1126-1215 | and in meshes of any size in hop order within eight links |
| SealedDelivery.KeyTooLateLoses | crates/pathweave-core/src/node.rs:1139-1180 | without the key at the first copy the message is recorded and lost, even though nothing is lost on the way and the key arrives afterwards |
| Router.Collect | crates/pathweave-core/src/router.rs:125-140 | the pairs of available transports and addresses of their kind, in registration then address order |
| Router.SortByCost | crates/pathweave-core/src/router.rs:146-150 | a stable sort by cost |
| Router.Candidates | crates/pathweave-core/src/router.rs:125-150 | the list tried holds exactly the pairs of an available transport and an address of its kind, each once, free before metered before unknown cost, then by registration and address |
| Router.PlanUnique | crates/pathweave-core/src/router.rs:125-150 | that description determines the list |
| Router.PlanCheapestFirst | crates/pathweave-core/src/router.rs:146-150 | in every plan nothing precedes a free transport but free ones, and no transport of unknown cost precedes a metered one |
| Router.TryAll | crates/pathweave-core/src/router.rs:152-192 | a pass stops at its first acknowledged pair, having failed on all before it |
| Router.FailedPassesAre | crates/pathweave-core/src/router.rs:152-199 | the tries of failed passes are all pairs of those passes, each failed, and no others |
| Router.Send | crates/pathweave-core/src/router.rs:102-200 | success on a pair means every earlier pair of that pass and every pair of every earlier pass failed; DeliveryFailed means three complete, non-empty passes failed; NoTransportAvailable means nothing was available at the start or a pass had no candidates |
| AtLeastOnce.NewMessageId | crates/pathweave-core/src/router.rs:467-472 | new ids have their high bit set and are otherwise the random bytes |
| AtLeastOnce.FramesDoNotMix | crates/pathweave-core/src/node.rs:892-906 | address exchanges are always taken for control frames and application frames never |
| SendOutcome.OutcomeIsTrue | crates/pathweave-core/src/router.rs:766-795 | in every interleaved run the handler ran at most once if and only if all dispatches fell within 60 s of the first; it always got the data sent; a success took either a true acknowledgement, which means the handler ran, within the window exactly once, or an address-exchange reply; and a try that read its reply in time took the former |
| SendOutcome.SuccessNeedsReply | crates/pathweave-core/src/router.rs:766-795 | a sender that only knows whether it read its reply before the two-second timeout can rely on success exactly if it did |
| SendOutcome.ReliableExactly | crates/pathweave-core/src/router.rs:788-789 | for every job, success implies delivery in every run if and only if the message taken for the acknowledgement is not the receiver's address-exchange reply, that is, not a control frame |
| SendOutcome.LateReplyUndelivered | crates/pathweave-core/src/router.rs:788-789 | a late reply is taken for the acknowledgement: success with nothing dispatched |
| SendOutcome.UndisturbedTryDelivers | crates/pathweave-core/src/router.rs:766-795 | for every job and receiver state, a try that nothing disturbs succeeds and runs the handler once with the data sent |
| SendOutcome.TimelyOutcome | crates/pathweave-core/src/router.rs:124-199 | with at most c candidates a pass and tries of at most d seconds, 3·c·d + 2 < 60 suffices for at most once in every case, and exactly once on a success that took a true acknowledgement |
| SendOutcome.RunKeeps | crates/pathweave-core/src/node.rs:887-937 | the invariant over sessions, caches, clock and result holds in every reachable state |
| StoreForward.PendingStore.StoreAndForward | crates/pathweave-core/src/node.rs:501-547 | for direct payloads, and with any neighbour as the peer for routed ones: sends at once when it is taken, otherwise queues at the back, or reports when the queue is full |
| StoreForward.PendingStore.Push | crates/pathweave-core/src/node.rs:535-546 | queues at the back, or reports exactly when the depth is reached |
| StoreForward.PendingStore.PutBack | crates/pathweave-core/src/node.rs:703-709 | failures come back in their old order, in front of what was pushed meanwhile |
| StoreForward.PendingStore.Process | crates/pathweave-core/src/node.rs:671-701 | an entry is sent if and only if it was queued at most the time to live before the drain began and its send is taken, kept if and only if it is as young and its send is not, and reported otherwise, one report each |
| StoreForward.PendingStore.DrainPeer | crates/pathweave-core/src/node.rs:645-710 | an undisturbed drain leaves exactly the entries that are young enough and were not taken, in order, reports as many as are too old, and leaves other queues alone |
| StoreForward.PendingStore.DrainAll | crates/pathweave-core/src/node.rs:718-801 | the same for every routed destination, with clock, neighbours and outcomes read anew for each; what is left is described by StoreForward.LeftoverIs |
| StoreForward.LeftoverIs | crates/pathweave-core/src/node.rs:671-709 | an entry is left by a drain if and only if it is young enough and was not taken |
| StoreForward.NothingLost | crates/pathweave-core/src/node.rs:501-801 | under any interleaving of calls and overlapping drains, accepted entries are, as a multiset, those queued, held by a call, held by a drain, delivered or reported; every report is justified by age or a full queue |
| StoreForward.InExactlyOnePlace | crates/pathweave-core/src/node.rs:501-801 | so a payload accepted once is always in exactly one of those places, with its id and queue time unchanged |
| StoreForward.ProcessExactly | crates/pathweave-core/src/node.rs:671-701 | one entry of an interleaved drain is reported if it is too old, else sent if the send works, else kept, and nothing else changes |
| StoreForward.NothingSentLate | crates/pathweave-core/src/node.rs:671-701 | in every run no drain sends an entry queued more than the time to live before the drain began |
| StoreForwardOrder.QueueInPushOrder | crates/pathweave-core/src/node.rs:655-709 | while drains of a destination do not overlap, its queue is a subsequence of the push log in the log's order |
| StoreForwardOrder.ReturnOrderly | crates/pathweave-core/src/node.rs:703-709 | a put-back gives the failures in their old order followed by everything pushed since the drain began |
| StoreForwardOrder.DepthKept | crates/pathweave-core/src/node.rs:535-546 | while nothing is queued during a drain, queue and drains together never exceed the depth, even if drains overlap |
| StoreForwardExact.OrderExactly | crates/pathweave-core/src/node.rs:655-709 | in every run the queue is in push order throughout if and only if each put-back finds only entries younger than those it returns |
| StoreForwardExact.ReturnOrder | crates/pathweave-core/src/node.rs:703-709 | a single put-back keeps the order if and only if nothing queued is older than what it returns |
| StoreForwardExact.YoungestFirstOrders | crates/pathweave-core/src/node.rs:655-709 | overlapping drains keep push order when, of those with something to return, only the youngest puts back |
| StoreForwardExact.DepthExactly | crates/pathweave-core/src/node.rs:535-546 | in every run the queue is within its depth throughout if and only if each put-back finds room for what it returns |
| StoreForwardRuns.OrderNeedsSerial | notes/decisions/021-store-and-forward.md:60-61 | as a rule for all runs, forbidding overlapping drains keeps push order and allowing all of them does not, unless the depth is zero |
| StoreForwardRuns.DepthNeedsQuiet | crates/pathweave-core/src/node.rs:535-546 | as a rule for all runs, forbidding that anything is queued during a drain keeps the depth, and without that rule it is not kept, not even if drains never overlap, unless the depth is zero |
| StoreForwardRuns.Grows | crates/pathweave-core/src/node.rs:671-709 | pushes during drains, one drain at a time, take a queue to any length |
| StoreForwardRuns.FullDrainIsDrain | crates/pathweave-core/src/node.rs:645-710 | the interleaved model's drain steps, taken in a row, do what the queue object's drain does |
| Bundle.FragmentsCover | crates/pathweave-core/src/bundle.rs:145-172 | fragments are non-empty, contiguous, and together the payload |
| Bundle.AtLeastTwo | crates/pathweave-core/src/bundle.rs:115-172 | a message that is fragmented is cut into at least two |
| Bundle.TakesAllIff | crates/pathweave-core/src/bundle.rs:145-172 | a link that takes so many bundles takes all fragments if and only if that many chunks can hold the payload |
| Bundle.FragmentSize | crates/pathweave-core/src/bundle.rs:76-99 | a fragment exceeds the MTU by at most the growth of its length head, and not at all when chunks are under 24 bytes |
| Bundle.WithinMtu | notes/architecture/ARCHITECTURE.md:499-500 | all fragments of a message stay within the MTU if and only if the heads of its last full and its last chunk fit |
| Bundle.MtuExceeded | crates/pathweave-core/src/bundle.rs:76-99 | 1000 bytes over a link with room for 100 give a fragment that is too long |
| BundleLayer.BundleLayer.SendBytes | crates/pathweave-core/src/bundle.rs:103-174 | numbers the message; from the encoded sizes alone: one whole bundle if the MTU is zero or the whole fits, MtuTooSmall if it does not and an empty fragment leaves no room, else contiguous fragments that join to the message, in order up to the first link failure |
| BundleLayer.FramesBySize | crates/pathweave-core/src/bundle.rs:103-144 | which of these three cases applies is decided by the two sizes and the MTU, in both directions |
| BundleLayer.BundleLayer.SendFragments | crates/pathweave-core/src/bundle.rs:145-172 | the fragmenting loop emits exactly the specified fragments |
| BundleLayer.BundleLayer.RecvBytes | crates/pathweave-core/src/bundle.rs:176-215 | reads until a message completes, a bundle does not decode or the link closes, keeping the rest for later |
| BundleLayer.BundleLayer.ReceivedLen | crates/pathweave-core/src/bundle.rs:28-30 | the bytes collected so far |
| BundleLayer.BundleLayer.Reassemble | crates/pathweave-core/src/bundle.rs:36-42 | the chunks joined in offset order |
| BundleLayer.ReceiveIsOutput | crates/pathweave-core/src/bundle.rs:176-215 | a receive returns the first message that the arrivals complete, and nothing else |
| BundleLayer.UndecodableEnds | crates/pathweave-core/src/bundle.rs:176-191 | bytes that do not decode end a receive that has handed nothing up before them, and what was collected stays |
| Reassembly.OnlyWhatWasSent | crates/pathweave-core/src/bundle.rs:192-213 | under any order, interleaving and repetition, whatever is handed up is the payload sent under that number |
| Reassembly.HandedAtLast | crates/pathweave-core/src/bundle.rs:27-43 | without repeats the length test is true exactly at the arrival of the last missing fragment |
| Reassembly.HandedOnce | crates/pathweave-core/src/bundle.rs:192-213 | so a message is handed up at most once |
| Reassembly.HandedEventually | crates/pathweave-core/src/bundle.rs:192-213 | and it is handed up once all its fragments are there |
| BundleEndToEnd.SendAll | crates/pathweave-core/src/bundle.rs:103-174 | fewer than 2^64 sends on one layer put exactly the frames of each, numbered from 0, on the link, as far as the link takes them |
| BundleEndToEnd.CompleteBySize | crates/pathweave-core/src/bundle.rs:103-174 | the link takes a message completely if and only if it takes one bundle that fits, or enough chunks of the room the MTU leaves |
| BundleEndToEnd.ReceiveAll | crates/pathweave-core/src/bundle.rs:176-215 | repeated receives return, in order, every message the arrivals complete |
| BundleEndToEnd.ReceivedAsSent | crates/pathweave-core/src/bundle.rs:103-215 | end to end: from any arrivals drawn from what a list of sends put on the link, every message received is the payload sent under its number |
| BundleEndToEnd.EachReceivedOnce | crates/pathweave-core/src/bundle.rs:103-215 | if each bundle put on the link arrives once, in any order, each message that fits whole or in the chunks the link takes for it is received exactly once |
| AddrExchange.EncodeAddrExchange | crates/pathweave-core/src/router.rs:475-518 | writes the control frame byte by byte as specified |
| AddrExchange.FrameLayout | crates/pathweave-core/src/router.rs:475-480 | the frame is the eight-byte control type, the number of addresses up to 255, then their records |
| AddrExchange.DecodeAddrExchange | crates/pathweave-core/src/router.rs:522-617 | reads it, refusing truncated records, bad tags and text that is not UTF-8 |
| AddrExchange.DecodeEncode | crates/pathweave-core/src/router.rs:475-617 | for every list and any trailing bytes, what decoding an encoding gives: the first 255 addresses, over-long strings cut, or nothing when a cut is not UTF-8 |
| AddrExchange.PlainUnchanged | crates/pathweave-core/src/router.rs:475-617 | strings of at most 255 bytes and IPv6 addresses without flow and scope come back unchanged |
| AddrExchange.EncodeDecode | crates/pathweave-core/src/router.rs:522-617 | whenever decoding succeeds, re-encoding gives a prefix of the input |
| Advertising.HeaderRoundTrip | crates/pathweave-transport-ble/src/advertising.rs:45-61 | decoding a header and payload gives them back |
| Advertising.HeaderReencodes | crates/pathweave-transport-ble/src/advertising.rs:45-61 | a packet that decodes is the encoding of what it decodes to |
| Advertising.BleAdvertisingTransport.Dispatch | crates/pathweave-transport-ble/src/advertising.rs:164-229 | one scanned packet is ignored, suppressed, announced or queued as specified, also when connects land between the lookup of its connection and the queueing |
| Advertising.BleAdvertisingTransport.DispatchLoop | crates/pathweave-transport-ble/src/advertising.rs:164-229 | a stream of packets is dispatched in order |
| Advertising.BleAdvertisingTransport.ConnectTo | crates/pathweave-transport-ble/src/advertising.rs:326-356 | dialling replaces the open connection of the peer |
| Advertising.StreamsAreFiltered | crates/pathweave-transport-ble/src/advertising.rs:164-229 | for every event sequence, connects racing with packets included, the queues of a source's connections, joined, are the in-order packets from it to the local id that the two-second window let through |
| Advertising.AnnouncedAreSources | crates/pathweave-transport-ble/src/advertising.rs:186-200 | for every event sequence the announcements are the sources of the packets that the two-second window let through, in order, whomever the packets are for |
| Advertising.AcceptsExactly | crates/pathweave-transport-ble/src/advertising.rs:205-229 | a packet leads to an accepted connection if and only if it is let through to this node and its source had no open connection at the lookup |
| Advertising.AcceptedOncePerInterval | crates/pathweave-transport-ble/src/advertising.rs:205-229 | from any state on, until the transport is stopped, a source yields at most one accepted connection, and none if it had an open one, whatever is dialled in between |
| Advertising.StopCloses | crates/pathweave-transport-ble/src/advertising.rs:304-311 | after a stop and a start, the next packet let through to this node opens a newly accepted connection, whatever was open before |
| Advertising.DialLosesRace | crates/pathweave-transport-ble/src/advertising.rs:205-218 | a connection dialled between lookup and insertion is superseded by the accepted one and receives nothing |

## Left out

- Noise handshakes, AEAD, blake3 and base58: foreign code; only symbolic facts about hashing, sealing and session identity are used.
- bp7 encoding and parsing: bundles are records with a size function, and undecodable input is one arrival kind.
- QUIC, BLE GATT, WiFi Direct and mDNS backends, cost detection and health monitoring: operating-system plumbing with shallow logic.
- Events other than StoreFailed: broadcasting them to subscribers and a subscriber's lag are not modelled.
- Changing peer tables: the neighbour relation is fixed during a flood; discovery and departures are not modelled.
- `connect` and its handshake-only sessions: the candidate order is that of `Router.Candidates`, the rest would repeat it.
- Liveness under loss, and exactly-once delivery of stored payloads retried after the window: the code does not provide them.
- AnnounceDelivery.SmallMeshLearns: and AnnounceDelivery.HopOrderLearns are about nodes whose registry is unbounded, and that do not forget the peer; a bounded registry may evict the key again, by the rule that KeyRegistry.RegistryRefinesLedger gives.
- Router.Send: transports and tries are oracles; sessions and time are in AtLeastOnce, which allows any number of tries a pass.
- StoreForward.NothingLost: the clock reading of a drain is taken together with the removal of the queue, which the code does just after it.
- Advertising.StreamsAreFiltered: receivers are never closed, so a send into a connection's queue does not fail; the hex form of short ids is an option parameter.
- BundleEndToEnd.SendAll: sequence numbers wrap after 2^64 sends as in the code, but what a wrapped number does to reassembly is not treated.
- Advertising.BleAdvertisingTransport.Dispatch: a stop is not interleaved with the dispatch of a packet; connects are.
- Advertising.BleAdvertisingTransport.StartWith: a second start without a stop is a restart in the model; in the code the first dispatch loop would go on beside the second.
