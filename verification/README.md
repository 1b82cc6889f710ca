# Wallet MPC node: verified model

A Dafny model of the concurrent task engine of a wallet MPC node, of the sign material it
keeps between signatures, and of the key algebra by which its signers reach the key behind a
published address. The crypto libraries, hashing, sockets and files are parameters or left out.

- **Task lifecycle** (`Lifecycle*.dfy`): start handlers, workers, abort calls and disconnect
  scans as a step machine with a program counter per thread, one step per mutex section.
  Theorems hold after any sequence of steps.
- **Tables** (`AbortTable`, `SignSlots`, `WarmRegistry`, `SessionKeys`): each package variable
  as a class whose methods are proved against a function on values, and that function against
  plain history or a plain lock table.
- **Messages** (`RecvChannel`, `EarlyMessages`, `EarlyFlows`, `SessionRoutes`, `SessionTable`,
  `RegisterGap`, `DeliveryLoop`, `DeliveryProgress`, `Inbox`, `InboxFates`, `MessagePath`): the receive
  channel with its waiting senders, early buckets and replay, the delivery loop with its wake-up
  token, the inbox in front of the protocol, and the whole way of a message through them.
- **Sign material** (`RefreshMaterial`, `MaterialAccounting`, `MaterialPool`): cloning through
  decimal text, use counts over any run, and the pool as a heap structure that zeroes what it
  replaces.
- **Keys** (`Bytes`, `CurveGroup`, `Derivation`, `MacData`, `PrivateDerivation`, `HdLayers`, `HdContents`,
  `HdSigners`, `PrimeField`, `Interpolation`, `Threshold`): derivation on both curves, the layers that
  publish addresses, the single-key and the threshold signers. secp256k1 follows BIP 32, section "Public parent
  key -> public child key"; Ed25519 is this repository's own variant.
- **Mobile start/stop** (`MobileNode`) and the **HD path text** (`HdPath`, `Strings`, `Decimal`).
- `Wrappers`, `Sequences` and `Modular` hold shared definitions.

`dafny verify dfyconfig.toml` checks everything.

## What is assumed

- One node per process; one start handler in flight per task (`startingTasks` is a set); keygen
  and sign task ids are disjoint; node ids contain no `|`; empty task ids are ignored.
- Sections inside one lock are atomic. In `Lifecycle` each section is its own step. In
  `EarlyMessages` a whole `Deliver*Msg` call and a whole `register*Session` call are one step;
  `RecvChannel` takes `enqueueRecvItem` apart into its closed check, its select and its waits.
- A panic ends the process. `RecvChannel` records it as the outcome of the sender and lets the
  others go on.
- Clock readings are taken in lock order. A mark may lapse at any moment in `Lifecycle`.
- Errors inside a start handler are a nondeterministic `fails` of its section. Between the last
  check and the begin only the threshold keygen handler can fail.
- Duplicate detection remembers every key, without eviction. `epoch` and the warm generation
  counter do not wrap.
- Curve points obey the group laws of `CurveGroup.Laws` (shown consistent by an instance);
  SHA-256, HMAC-SHA512, the ID encoding, the Ed25519 point codec, on-curve checks and Paillier
  prime checks are parameters. Big-integer text is decimal, with or without a sign. HD indices
  fit 32 bits.
- For the threshold results the group order is prime (`Threshold.Sharing`). `GetPQ` returns the
  Paillier key's own integers, so zeroing them reaches the key.
- `NewECPoint` refuses the affine pair (0, 0), which stands for the identity of secp256k1.

## Findings

- A sender that has passed the closed check of `enqueueRecvItem` (`internal/protocol/enqueue.go:12-19`)
  panics if the session closes before its send, because `close` closes the channel
  (`internal/protocol/keygen.go:167`, `internal/protocol/sign.go:486`): while it waits at a full
  channel (`RecvChannel.ParkedSenderPanics`, with 1024 queued messages), and even with room, between
  check and select (`RecvChannel.SenderPanicsWithRoom`). `RecvChannel.PanicsIffClosedInSelect` and,
  for one wait, `RecvChannel.WaitEnds` say exactly when.
- On secp256k1 the address layer (`mpc/hd/derive_layers.go:111-123`) publishes a key even when the path
  leads to the identity; both signers then refuse. `HdSigners.SignersFollowAddressECDSA` gives the exact
  condition for every group; `HdSigners.IdentityIsPublished` is a toy instance of it (integers
  modulo 5, constant MAC), not a secp256k1 path. On Ed25519 all three agree outright.
- The stale clear at `internal/protocol/sign.go:298` can free the slot of a task that has begun
  but not registered, so a second start of that task can push a session out of the map whose
  worker runs, and an abort then leaves that worker running and uncancelled
  (`LifecycleReplaced.AbortMissesReplacedWorker`). It cannot happen if no task is started twice
  (`LifecycleCancels.AbortCancelsWorker`); for a session pushed out,
  `LifecycleCancels.ReplacedCancelledIff` says exactly when its worker is still cancelled.
- In the same run the end of the older worker (`internal/protocol/sign.go:323-373`) frees the slot of the
  newer session of its task, whose worker runs (`LifecycleSlotLoss.OlderWorkerFreesNewerSlot`);
  `LifecycleSlotLoss.RunningSessionLosesSlotIff` says exactly when a running session is without its slot.
- Registering takes the bucket, writes the map and replays in three sections
  (`internal/protocol/keygen.go:206-222`), and a delivery looks up and appends or sends in two
  (`internal/protocol/keygen.go:379`, `:388-407`, `:430`). A message appended after the bucket was taken is
  not replayed (`RegisterGap.LateMessageIsLost`; exactly those, `RegisterGap.SentUnlessLate`); one sent
  between map write and end of replay overtakes replayed messages
  (`RegisterGap.DirectOvertakesReplay`; exactly then, `RegisterGap.ReplayAheadIff`).
- Two warm refreshes of one session key that both pass `cancelPriorEcdsaWarm`
  (`internal/protocol/ecdsa.go:188`) before either registers leave the earlier one out of reach once
  the later one has left: it runs on, registered, and no cancel fires it (`WarmRegistry.OrphanedWarm`).
  `WarmRegistry.FiredIffNewest` says exactly when a cancel fires a warm.

## Model

| member | source | states |
|---|---|---|
| LifecycleStructure.StructureHolds | internal/protocol/task_abort.go:68-104 | in every reachable state the starting set is the set of running handlers, each session id belongs to one task, a session is untouched until its handler registers it, and abort calls act only on their own task's sessions |
| LifecycleAborts.AbortsReachHolds | internal/protocol/task_abort.go:233-259 | in every reachable state a registered closed session is about to be unregistered by an abort call, and a registered session of a marked task is still to be rechecked by its handler or covered by an abort call |
| LifecycleAborts.NoLostAbort | internal/protocol/task_abort.go:298-321 | after any interleaving, a marked task whose handler and abort calls have all returned has no session registered |
| LifecycleAborts.WorkersToldHolds | internal/protocol/task_abort.go:261-294 | in every reachable state a running worker's session is registered, cancelled, or was replaced; an abort closes, unregisters and ends the slot only after cancelling |
| LifecycleAborts.AbortReachesWorker | internal/protocol/task_abort.go:108-117 | a worker of a marked task still running once handler and aborts have returned has its context cancelled, or was replaced in the map and has its channel closed; `LifecycleCancels` says which |
| LifecycleCancels.AbortCancelsWorker | internal/protocol/task_abort.go:261-278 | in every run that starts no task twice, such a worker is cancelled |
| LifecycleCancels.StartedOnceHolds | internal/protocol/sign.go:561-570 | in every run that starts no task twice, no session is ever pushed out of the map |
| LifecycleCancels.ReplacedCancelledIff | internal/protocol/sign.go:561-570 | a worker whose session was pushed out is cancelled in the end exactly if it was cancelled, or an abort had passed its closed check on it, by then |
| LifecycleReplaced.AbortMissesReplacedWorker | internal/protocol/sign.go:286-317 | a run of three threshold sign starts and one abort that leaves a marked task's first worker running and not cancelled |
| LifecycleSlots.SlotsConservedHolds | internal/protocol/keygen.go:618-668 | in every reachable state a held slot is owed by the handler, the abort call it made, a running worker, or an abort past its closed check |
| LifecycleSlots.SlotConservation | internal/protocol/sign.go:323-373 | a task with no handler, abort call or running worker left holds no keygen or sign slot, whatever order the clean-ups ran in |
| LifecycleSlots.KeyHasOneOwner | internal/protocol/sign.go:502-534 | in every reachable state of the whole engine two tasks holding the same key are the same task |
| LifecycleSlotLoss.HeldIffNotFreedSince | internal/protocol/sign.go:502-534 | after any run a task holds its slot exactly if one of its begins succeeded and since then no stale clear of it, no last section of an abort call of it and no end of a worker of it has come |
| LifecycleSlotLoss.RunningSessionLosesSlotIff | internal/protocol/sign.go:286-317 | a session whose worker runs is without its slot exactly if one of those, other than its own worker's end, has come since its begin and the task has not begun again after |
| LifecycleSlotLoss.OlderWorkerFreesNewerSlot | internal/protocol/sign.go:323-373 | a run in which the end of an older session's worker leaves the newer session of the task registered, open and running without a slot |
| LifecycleStarts.StaleClearIsJustified | internal/protocol/sign.go:296-303 | over every run, a handler frees the slot of another task only if, at some step since it read that this task uses its key, that task had no session in the map, or one closed by now |
| LifecycleStarts.OpenSessionTurnsAway | internal/protocol/sign.go:304-317 | a handler that reads that another task uses its key, while that task's session stays registered and open, comes nowhere but to its return, within three further sections |
| LifecycleStarts.OpenSessionKeepsSlots | internal/protocol/sign.go:229-240 | such a handler changes no slot and no session |
| LifecycleBegins.StaleOwnerPassed | internal/protocol/sign.go:298-326 | a handler that finds the owner of its key without a session, or with a closed one, comes to its own begin within five sections unless marked |
| LifecycleBegins.BeginRefusedWhileHeld | internal/protocol/keygen.go:179-188 | over every run, a handler of either kind that comes to its begin while its task holds the slot is leaving or gone from then on, and its session gets neither into the map nor a worker |
| LifecycleBegins.BeginGrantedWhenFree | internal/protocol/keygen.go:618-647 | one that finds slot and key free, without a failure, holds the slot and its next section registers its session |
| LifecycleBegins.HeldSlotGuardsSession | internal/protocol/keygen.go:202-222 | a session that has begun is not pushed out of the map while its task holds the slot |
| LifecycleBegins.ClearHandlerRuns | internal/protocol/keygen.go:568-670 | a handler that is not marked, does not fail, meets at most a stale owner of its key and finds slot and key free when it begins has its worker running after at most eleven sections |
| LifecycleBegins.RefusedHandlerLeaves | internal/protocol/sign.go:323-326 | a handler turned away at any section is on its way out from then on; its session is never registered and has no worker |
| LifecycleBegins.HandlerStarts | internal/protocol/sign.go:211-218 | a start message begins a handler with a session of its own, unless the task has one or no id |
| LifecycleBegins.MarkKeepsWorkerAway | internal/protocol/task_abort.go:106-117 | a handler whose task is marked from some section before its spawn on never gets a worker |
| LifecycleBegins.MarkedHandlerAborts | internal/protocol/keygen.go:648-650 | at each of its checks a handler that finds its task marked calls an abort of the task and waits until the call has returned |
| LifecycleBegins.MarkedNeverBegins | internal/protocol/keygen.go:568-570 | a handler of a task marked from its entry check on takes no slot and registers nothing |
| LifecycleEnds.RegisteredSessionHasWorker | internal/protocol/keygen.go:662-668 | over every run, a registered session whose worker was ever spawned still has it, before its unregister |
| LifecycleEnds.NoWorkerNoSession | internal/protocol/keygen.go:662-668 | a task without handler, abort call and worker has no session of a spawned worker in the map |
| LifecycleEnds.WorkerGone | internal/protocol/keygen.go:597-606 | a running worker is gone for good after three sections of its own, and its session is not in the map |
| LifecycleEnds.OnlyAbortsAndSingleWorkersCancel | internal/protocol/sign.go:265-273 | a session is cancelled only by an abort call of its task that found it open, or at the end of its own single-key worker |
| LifecycleEnds.AbortReturns | internal/protocol/task_abort.go:298-321 | an abort call has returned after eight sections of its own |
| LifecycleEnds.AbortEndsOpenSession | internal/protocol/task_abort.go:233-248 | an abort call that finds its session open has, once returned, cancelled and closed it and taken it out of the map for good |
| LifecycleEnds.AbortLeavesClosedSession | internal/protocol/task_abort.go:261-264 | one that finds it closed does nothing more |
| LifecycleEnds.AbortIsCalled | internal/protocol/task_abort.go:298-302 | an abort of a task is a call of its own, at its marking section |
| LifecycleEnds.AbortMarks | internal/protocol/task_abort.go:302 | its first section puts the mark in force |
| LifecycleScan.WatchIsLiveAtBegin | internal/protocol/task_abort.go:324-328 | the sessions a scan watches are exactly those starting or registered when it began, for the rest of the run |
| LifecycleScan.ScansOkHolds | internal/protocol/task_abort.go:169-193 | reading starting tasks before sessions keeps every watched live session accounted for at each point of the scan |
| LifecycleScan.DisconnectMissesNothing | internal/protocol/task_abort.go:324-341 | a session live when the scan began and still live when its lists are read has its task in `seen` |
| LifecycleScan.DisconnectAbortsAll | internal/protocol/task_abort.go:332-341 | when the scan has returned, every such session's task has an abort call that this scan made and that has returned; if the session is still registered under a mark in force, its handler will recheck or another abort call covers it |
| LifecycleScan.CallMarks | internal/protocol/task_abort.go:298-306 | an abort call made after some point of a run and past its marking section has put the mark in force after that point |
| LifecycleScan.DisconnectMarksAll | internal/protocol/task_abort.go:324-341 | so the mark of every such task was in force at some point after the scan began |
| LifecycleScans.ScanReadsLists | internal/protocol/task_abort.go:324-337 | three sections after its begin a scan has read all its lists |
| LifecycleScans.ScanFinishes | internal/protocol/task_abort.go:338-341 | it then finishes after two sections for each task left, one more, and one for a call it waits for |
| SignSlots.SlotsRefineLocks | internal/protocol/sign.go:490-534 | after any begin and end calls the two maps represent, and invert each other as, a plain set of (task, key) locks, and grant exactly what the set grants |
| SignSlots.LateEndIsHarmless | internal/protocol/sign.go:521-534 | an end by a task whose key went to another task leaves the new owner's two entries in place |
| SignSlots.SignSlotTable.BeginSignTask | internal/protocol/sign.go:502-519 | accepts exactly non-empty arguments with the task free and the key free or its own, and updates both maps |
| SignSlots.SignSlotTable.EndSignTask | internal/protocol/sign.go:521-534 | removes the task's entry, and the key's entry only if it is the task's |
| SignSlots.SignSlotTable.ActiveSignTaskForKey | internal/protocol/sign.go:537-544 | the owner of the key at this node, or the empty string |
| AbortTable.TableRemembers | internal/protocol/task_abort.go:60-66 | the pruned table holds, for every id, the accepted mark of the last 15 minutes and nothing that was not accepted |
| AbortTable.AbortedIffMarkedWithin | internal/protocol/task_abort.go:48-58 | isTaskAborted answers exactly "some accepted mark within the last 15 minutes" |
| AbortTable.AcceptedMarksFarApart | internal/protocol/task_abort.go:302-306 | two accepted marks of a task are more than 15 minutes apart, so at most one abort per window carries the last gasp |
| AbortTable.RefusedOnlyWhileMarked | internal/protocol/task_abort.go:33-46 | a mark is refused only while an accepted one is at most 15 minutes old |
| AbortTable.AbortedTasks.TryMarkTaskAborted | internal/protocol/task_abort.go:33-46 | prunes, then accepts and stores the mark unless the id is empty or marked |
| AbortTable.AbortedTasks.IsTaskAborted | internal/protocol/task_abort.go:48-58 | prunes, then looks the id up |
| AbortTable.AbortedTasks.PruneLocked | internal/protocol/task_abort.go:60-66 | the loop removes exactly the entries older than 15 minutes |
| SessionKeys.SuffixListsOwnTasks | internal/protocol/task_abort.go:93-104 | the suffix match over composed keys recovers exactly the ids this node composed |
| SessionKeys.ComposedKeys | internal/protocol/sign.go:498-500 | pairs and their composed keys identify each other |
| SessionKeys.SortingIsUnique | mpc/party.go:6-10 | sorted lists with the same elements are equal, so any sorting routine returns the same list |
| SessionKeys.SortedSorts | mpc/party.go:6-10 | the sorted list is in byte order and a permutation of its input |
| SessionKeys.LeqIsDictionary | mpc/party.go:6-10 | the order is that of a dictionary: a prefix first, else the first differing character decides |
| SessionKeys.RefreshKeyIdentifies | mpc/alg_ecdsa/refresh.go:17-19 | two refresh keys are equal exactly when key id and participants (as a multiset) are |
| SessionKeys.MaterialKeyIdentifies | mpc/alg_ecdsa/sign_material.go:104-106 | two material keys are equal exactly when key id, own node and participants are |
| SessionKeys.JoinedIffPermutation | internal/protocol/ecdsa.go:67-69 | sorted participant lists join to the same text exactly when they are permutations |
| EarlyMessages.CapsHold | internal/protocol/keygen.go:388-407 | over any calls no bucket and no channel holds more than 1024 items |
| EarlyMessages.BucketsHoldBatches | internal/protocol/sign.go:727-761 | each bucket is the batch told from the calls about its own key, whatever the calls about other keys |
| EarlyMessages.EarlyMessagesConserved | internal/protocol/keygen.go:202-234 | with deliver and register calls one at a time, what was put into a session's channel is its key's unexpired batch in arrival order, once, then the later deliveries |
| EarlyMessages.CachedIsReplayed | internal/protocol/keygen.go:379-410 | a message cached by call i and still waiting, unexpired, when call j registers its key stands in the new channel at its place in the batch |
| EarlyMessages.ReplayedInOrder | internal/protocol/keygen.go:224-233 | of two messages waiting together the one cached first is replayed first |
| EarlyMessages.EachPlaceWasCached | internal/protocol/sign.go:738-757 | every replayed place was filled by one caching call: as often as cached in keygen, and, with BatchesOk, once in sign |
| EarlyMessages.ReplayedFirst | internal/protocol/sign.go:550-578 | the batch stands ahead of everything the channel is sent later |
| EarlyFlows.KeygenKeepsRepeats | internal/protocol/keygen.go:388-407 | an early keygen message is kept behind an earlier one of at most 15 minutes ago, also if the two are the same, while fewer than 1024 wait |
| EarlyFlows.SignKeepsOnce | internal/protocol/sign.go:734-760 | an early sign message is kept exactly if it is not waiting yet and fewer than 1024 do |
| EarlyFlows.KeygenWaitsQuarterHour | internal/protocol/keygen.go:41-47 | over any run a keygen session starts with what waits for its key if that is at most 15 minutes old, else with nothing |
| EarlyFlows.SignWaitsTenMinutes | internal/protocol/sign.go:58-64 | a sign session with what is at most 10 minutes old |
| SessionRoutes.SessionIsLatest | internal/protocol/sign.go:562-592 | over any run a key leads to a session exactly if that was registered for it last and has not unregistered since |
| SessionRoutes.ClosedIff | internal/protocol/sign.go:563-565 | a session is closed exactly if a close or a registration that pushed it out has closed it |
| RecvChannel.PutOnceInOrder | internal/protocol/enqueue.go:9-25 | in every reachable state the queue is the tail of what was put in, at most 1024 long; each put is by one call that returned true, once, of its own message; a sender waits only while the session is open and the channel full |
| RecvChannel.ReceiverTakesFirst | internal/protocol/keygen.go:310 | a receive takes the first message of the channel; a waiting sender gets the room |
| RecvChannel.TimerStartsOver | internal/protocol/enqueue.go:9-25 | a sender whose wait ends by the timer starts over with the closed check |
| RecvChannel.PanicsIffClosedInSelect | internal/protocol/enqueue.go:11-19 | a call that has ended panicked exactly if the session closed between its closed check and its send, gave up exactly if it closed before the check, and sent exactly if it had sent before any close |
| RecvChannel.WaitEnds | internal/protocol/enqueue.go:18-23 | one wait at a full channel ends in a panic exactly if the session closes before room comes to it, in a send exactly if room comes first, and else goes on, whatever other senders and the loop do |
| RecvChannel.ParkedSenderPanics | internal/protocol/keygen.go:160-169 | a run with 1024 queued messages, a waiting sender and a close, in which the sender panics |
| RecvChannel.SenderPanicsWithRoom | internal/protocol/sign.go:479-488 | a run with an empty channel in which the session closes between check and send, and the sender panics |
| RecvChannel.DriveIsRun | internal/protocol/enqueue.go:9-25 | one call of the retry loop amid any doings of others is a run of the machine, so the results above hold of it |
| RecvChannel.QuietDrive | internal/protocol/enqueue.go:9-25 | a call nobody interferes with puts its message at the end if the session is open with room, and else changes nothing |
| RegisterGap.SentUnlessLate | internal/protocol/keygen.go:206-222 | at the grain of lock sections, a delivered message reaches the registered session exactly if it was not appended after the bucket was taken; else it stays in the bucket |
| RegisterGap.SentOnceInOrder | internal/protocol/keygen.go:224-233 | nothing is sent twice, and replayed messages keep the order in which they were appended |
| RegisterGap.TakenAsAppended | internal/protocol/keygen.go:206-211 | a registration takes exactly the messages appended before it, in the order of their appends, and replays them so |
| RegisterGap.ReplayAheadIff | internal/protocol/keygen.go:215-233 | the replayed messages stand ahead of all others exactly if no delivery sent between the map write and the end of the replay |
| RegisterGap.DirectInOrderIff | internal/protocol/keygen.go:379-430 | deliveries that found the session stand in the order of their lookups exactly if none sent while an earlier one was still to send |
| RegisterGap.LateMessageIsLost | internal/protocol/keygen.go:206-222 | a run in which a message appended after the bucket was taken is not replayed |
| RegisterGap.DirectOvertakesReplay | internal/protocol/sign.go:569-577 | a concrete run in which a delivery between map write and replay overtakes an earlier message |
| EarlyMessages.ChannelIsFifo | internal/protocol/enqueue.go:9-25 | what waits in a channel is the tail of what was sent to it |
| EarlyMessages.BatchesOk | internal/protocol/sign.go:744-756 | a sign batch holds no duplicate |
| RecvChannel.Session.Enqueue | internal/protocol/enqueue.go:9-25 | the retry loop, each move after whatever others do: gives up when closed, panics, sends, or waits and starts over, as the machine's call does |
| RecvChannel.Session.Close | internal/protocol/keygen.go:160-169 | closes once; every waiting sender panics |
| SessionTable.SessionTable.Deliver | internal/protocol/keygen.go:348-436 | takes the table to the state after one whole delivery: own messages dropped, others to the key's bucket or through the retry loop to the session, amid whatever others do to its channel |
| SessionTable.UndisturbedIsWhole | internal/protocol/enqueue.go:9-25 | undisturbed, the retry loop comes to the single send step of the table's runs |
| SessionTable.SessionTable.Register | internal/protocol/sign.go:550-578 | takes the table to the state after one whole registration: bucket taken, a replaced session closed, the unexpired batch replayed in order |
| SessionTable.SessionTable.Unregister | internal/protocol/sign.go:580-600 | takes the table to the state after an unregister: the session only under its own pointer, with the key's bucket |
| SessionTable.SessionTable.ClearEarly | internal/protocol/task_abort.go:155-167 | takes the table to the state without the key's bucket |
| SessionTable.SessionTable.CleanupExpiredLocked | internal/protocol/keygen.go:41-47 | the loop removes exactly the expired buckets |
| DeliveryLoop.NoLostWakeUp | internal/protocol/keygen.go:146-151 | whenever the loop waits with cached items, the handler has not notified or a token is pending |
| DeliveryLoop.ProcessedInOrder | internal/protocol/keygen.go:277-322 | the processed items are the received ones less own and over-cap items, in order, and received plus waiting is what was sent |
| DeliveryLoop.OnlyOwnAndOverCapDropped | internal/protocol/sign.go:623-668 | an item is dropped exactly if it is the node's own, or came before the party started and behind 1024 taken items |
| DeliveryLoop.QuietMeansProcessed | internal/protocol/keygen.go:659-660 | once notified and idle, the loop has processed every taken item |
| DeliveryLoop.HandedOverUntilAccepted | internal/protocol/keygen.go:324-345 | item j of a list of calls is handed to the party exactly if it was not known beforehand and no equal earlier item was accepted |
| DeliveryLoop.LoopHandsOver | internal/protocol/sign.go:670-693 | in every run of the loop the party receives exactly those of the processed items, in order |
| DeliveryLoop.SettleIsRun | internal/protocol/sign.go:654-667 | a round of the loop body up to the next select is a run of the machine's own steps |
| DeliveryLoop.SeenMeansAccepted | internal/protocol/sign.go:670-693 | the remembered items are those known beforehand and those accepted |
| DeliveryProgress.WakeUpFlushes | internal/protocol/keygen.go:296-302 | in any run a wake-up once the party has started processes everything that waited, in order, and consumes the token |
| DeliveryProgress.ReceiveDecides | internal/protocol/keygen.go:282-317 | a round that receives drops the node's own message, keeps another one before the start unless 1024 wait, and after it processes what waited and then the message |
| DeliveryProgress.ClosedChannelEnds | internal/protocol/keygen.go:310-313 | with its channel closed and drained the loop ends when it next receives |
| DeliveryProgress.EndsDrained | internal/protocol/keygen.go:310-313 | it never ends leaving a message in the channel |
| DeliveryProgress.StarterNotifies | internal/protocol/keygen.go:659-660 | the handler's two sections start the party and leave a token |
| DeliveryLoop.Delivery.OnReceive | internal/protocol/keygen.go:307-316 | the receive branch takes one message from the channel and reaches the state of the machine's receive step followed by its moves |
| DeliveryLoop.Delivery.OnPartyReady | internal/protocol/sign.go:663-665 | the wake-up branch reaches the state of the machine's token step followed by its moves |
| DeliveryLoop.Delivery.FlushEarly | internal/protocol/sign.go:627-652 | caches the message before the party starts, else processes all cached messages and then this one, as the machine's moves do |
| DeliveryLoop.Delivery.ProcessMessage | internal/protocol/sign.go:670-693 | skips an item known as a duplicate, hands any other to the party, remembers it if accepted, so that seen-set and handed-over list, written in the branches, stay those told from the list of calls |
| DeliveryLoop.Delivery.NotifyPartyReady | internal/protocol/keygen.go:146-151 | leaves exactly one token, also when one is pending |
| Inbox.InboxConservation | mpc/inbox.go:43-125 | over any events every delivery has exactly one fate, handler calls come once each in arrival order, and pending keeps its cap of 256 and distinct keys |
| InboxFates.InForce | mpc/inbox.go:43-78 | over any events the expected module is the one last set, none after a clear; a handler is present exactly if the last event on it set one |
| InboxFates.ArrivalDecides | mpc/inbox.go:86-125 | a delivery that does not decode is refused, one of a module other than the expected is filtered; with a handler the others are handled at once, without one they wait unless 256 do or the same wire does |
| InboxFates.WaitsForHandler | mpc/inbox.go:117-122 | a waiting delivery waits until the handler is next set or cleared |
| InboxFates.ReplayDecides | mpc/inbox.go:49-70 | then it is handled exactly if no module is expected or its own is, filtered otherwise; a nil handler or a clear drops it |
| InboxFates.HandledOnlyIfExpected | mpc/inbox.go:58-69 | the handler comes to be called only on arrival or at a replay, with no module expected or the message's own |
| InboxFates.HandledIff | mpc/inbox.go:86-105 | over any events a delivery is handled exactly if at its arrival with a handler set, or at a replay while it waited, no module was expected or its own was |
| InboxFates.FirstErrorIsFirst | mpc/inbox.go:65-67 | a replay answers the error of the first matching message the handler complains about, under its id |
| InboxFates.NoErrorIfNone | mpc/inbox.go:57-69 | and none if it complains about none |
| Inbox.ReplayedIsOrdered | mpc/inbox.go:49-70 | a replay hands over the matching pending entries, each once, in arrival order |
| Inbox.ReplaysAgree | mpc/inbox.go:58-69 | the handler calls of the object's replay loop are the calls behind the replayed tags, in order |
| Inbox.MessageInbox.Deliver | mpc/inbox.go:86-125 | filters, calls the handler, or appends unless a duplicate or full |
| Inbox.MessageInbox.SetHandler | mpc/inbox.go:49-70 | the replay loop empties pending and hands over the entries of the expected module in order |
| Inbox.MessageInbox.ClearHandler | mpc/inbox.go:72-78 | drops handler and pending entries |
| Inbox.MessageInbox.SetExpectedModule | mpc/inbox.go:43-47 | sets the filter and nothing else |
| MessagePath.PartsJoin | internal/protocol/keygen.go:268-345 | in every joint run of buckets, loop and inbox the session's channel is the one the loop receives from, and the inbox's deliveries are, in order, the items handed over and passed on |
| MessagePath.PartsMoveFreely | internal/protocol/keygen.go:268-345 | in a joint run each part may make any step of its own, with the effect it has alone |
| MessagePath.HandlerCallsInOrder | internal/protocol/ecdsa.go:122-133 | every handler call is for one message put into the channel, and later calls are for later messages |
| MessagePath.EveryMessageHasOneEnd | internal/protocol/keygen.go:324-345 | with the loop idle, a message put into the channel reached the handler exactly if it did not stop before the inbox (own, over cap, known or accepted before, not passed on) nor in it (waiting, filtered, repeated, dropped, refused) |
| MessagePath.CachedReachesHandler | internal/protocol/keygen.go:202-234 | so did a message that waited unexpired in the bucket when the session registered, from its place in the batch |
| RefreshMaterial.PersistRoundTrip | mpc/alg_ecdsa/convert.go:141-211 | material survives the trip through decimal text unchanged, exactly when the library accepts it |
| RefreshMaterial.PersistedUnderItsName | mpc/alg_ecdsa/convert.go:141-166 | every number of the material is written under its own name |
| RefreshMaterial.PubRoundTrip | mpc/alg_ecdsa/convert.go:46-63 | a partial key is read back exactly if it is on the curve |
| RefreshMaterial.CloneRefreshResult | mpc/alg_ecdsa/convert.go:213-219 | a clone is made exactly of complete acceptable material; it is made of new objects, has the same value and can be cloned again |
| RefreshMaterial.RefreshResultToPersist | mpc/alg_ecdsa/convert.go:141-166 | fails exactly without Paillier primes, else writes share (nil as text), primes, every partial key (nil as empty text) and every non-nil Pedersen entry |
| RefreshMaterial.RefreshResultFromPersist | mpc/alg_ecdsa/convert.go:168-211 | succeeds exactly on readable text, with new objects of the value read |
| RefreshMaterial.PubMapFromJSON | mpc/alg_ecdsa/convert.go:73-83 | converts all entries or fails on one that does not parse |
| RefreshMaterial.PubMapToJSON | mpc/alg_ecdsa/convert.go:65-71 | writes every entry, a nil one as empty text |
| RefreshMaterial.ZeroRefreshResult | mpc/alg_ecdsa/sign_material_zero.go:22-34 | zeroes the share, the ElGamal secret and both primes in place, and nothing else |
| RefreshMaterial.ZeroBigInt | mpc/alg_ecdsa/sign_material_zero.go:10-19 | zeroes the integer in place |
| Decimal.ParsePrintInt | mpc/alg_ecdsa/convert.go:141-166 | parsing the decimal text of any integer, negative ones included, gives it back |
| Decimal.SignsAreRead | mpc/alg_ecdsa/convert.go:168-186 | a leading plus changes nothing and a leading minus negates; unsigned text is read exactly if it consists of digits |
| MaterialAccounting.BufferIsHistory | mpc/alg_ecdsa/sign_material.go:109-164 | over any calls a key's buffer is told from history: last commit, successes since, warm raised since |
| MaterialAccounting.AcquireSucceedsIff | mpc/alg_ecdsa/sign_material.go:89-101 | an acquisition succeeds exactly when material was committed at most 8 minutes ago and used fewer than 64 times |
| MaterialAccounting.CountsAreConsecutive | mpc/alg_ecdsa/sign_material.go:121-138 | successful acquisitions return 1, 2, 3 and so on since the commit, never above 64 |
| MaterialAccounting.TierOfSuccess | mpc/alg_ecdsa/sign_material_tier.go:14-25 | over any calls the tier of a success is told from its number since the commit: 40, 56, 64 |
| MaterialAccounting.NeedWarmRaisedOnce | mpc/alg_ecdsa/sign_material.go:126-132 | NeedWarm is raised by exactly the first success at count 40 or more since a commit, warm failure or clear |
| MaterialPool.SignMaterialPool.Acquire | mpc/alg_ecdsa/sign_material.go:109-138 | hands out a clone of new objects with the counted use, or reports exhausted or not ready; keeps other keys and everything handed out |
| MaterialPool.RefusalTold | mpc/alg_ecdsa/sign_material.go:115-120 | over any calls a refusal reports exhausted material exactly if 64 acquisitions of the last commit have succeeded, else that none is ready |
| MaterialPool.SignMaterialPool.CommitWarm | mpc/alg_ecdsa/sign_material.go:141-164 | installs an unused clone exactly if the result can be cloned, zeroes the replaced secrets, keeps other keys and everything handed out |
| MaterialPool.SignMaterialPool.MarkWarmFailed | mpc/alg_ecdsa/sign_material.go:172-177 | releases the outstanding warm and nothing else |
| MaterialPool.SignMaterialPool.HasReady | mpc/alg_ecdsa/sign_material.go:180-185 | exactly whether an acquisition would succeed |
| MaterialPool.SignMaterialPool.Clear | mpc/alg_ecdsa/sign_material.go:188-197 | leaves no material, zeroes every secret the pool held, keeps everything handed out |
| MaterialPool.SignMaterialPool.OtherKeysKept | mpc/alg_ecdsa/sign_material.go:53-62 | a step that writes only one buffer's objects keeps the ownership invariant, the other keys and everything handed out |
| MaterialPool.ZeroAll | mpc/alg_ecdsa/sign_material.go:191-195 | the loop of Clear zeroes every secret of every buffer |
| MaterialPool.AcquiredOutlivesPool | mpc/alg_ecdsa/sign_material.go:121-156 | an acquired result keeps the pool's material through a later commit and clear |
| WarmRegistry.FiredIffNewest | internal/protocol/ecdsa.go:37-47 | cancelPrior fires a warm that has entered exactly if its cancel function is still held and no other warm has entered for its key since |
| WarmRegistry.HeldUntilLeftOrFired | internal/protocol/ecdsa.go:37-65 | the cancel function of a warm that has entered is held exactly until it leaves or is fired |
| WarmRegistry.OrphanedWarm | internal/protocol/ecdsa.go:181-195 | a run that leaves a registered, running warm that no cancel can fire |
| WarmRegistry.CancelFiresLatest | internal/protocol/ecdsa.go:37-47 | cancelPrior fires the last warm to enter for the key, and nothing if that one has left or been cancelled |
| WarmRegistry.SoundHolds | internal/protocol/ecdsa.go:49-56 | ids are unique and every id reachable from a session key has its cancel function |
| WarmRegistry.StaleLeavesKeepNewer | internal/protocol/ecdsa.go:58-65 | late unregisters of replaced warms, and any registrations, unregisters and cancels on other keys, never remove a newer registration |
| WarmRegistry.FiredOnce | internal/protocol/ecdsa.go:37-47 | a fired warm is never fired again |
| WarmRegistry.WarmCancels.CancelPriorEcdsaWarm | internal/protocol/ecdsa.go:37-47 | removes both entries and calls the removed function |
| WarmRegistry.WarmCancels.UnregisterEcdsaWarmCancel | internal/protocol/ecdsa.go:58-65 | removes the function, and the key's entry only if it is this id |
| CurveGroup.TimesIsZero | mpc/hd/derive.go:101-104 | a multiple of the base point is the identity exactly for multiples of n |
| CurveGroup.ClockObeysLaws | mpc/hd/derive.go:92-99 | the assumed group laws have an instance for every n |
| Bytes.Pad32Value | mpc/hd/derive.go:34-41 | a number below 2^256 survives the 32-byte form |
| Bytes.ValueSer32 | mpc/hd/derive.go:106-113 | the index is read back from its four bytes |
| MacData.CompressedIsRead | mpc/hd/derive.go:70-79 | the compressed form is 33 bytes from which a reader of BIP 32's form gets x and the parity of y |
| MacData.CompressedAlike | mpc/hd/derive.go:70-79 | two points are encoded alike exactly when x and the parity of y agree |
| MacData.MacInput | mpc/hd/derive.go:137-151 | on secp256k1 the MAC of an index is over 37 bytes, the parent's compressed point and the four-byte index; its left half is the number, its right half the next chain code |
| MacData.MacInputEd25519 | mpc/hd/ed25519.go:29-84 | on Ed25519 over 36 bytes, the point's 32 and the index |
| Derivation.DeriveChildPubFromPath | mpc/hd/derive.go:116-154 | the loop computes the BIP 32 walk with all its error cases |
| Derivation.DeriveEd25519ChildPubFromPath | mpc/hd/ed25519.go:29-84 | the loop computes the Ed25519 walk with all its error cases |
| Derivation.ChildIsRootPlusDelta | mpc/hd/derive.go:130-153 | for every accepted path on either curve the child is root plus delta times the base point, with delta < n |
| Derivation.DeriveInTwoParts | mpc/hd/derive.go:129-153 | deriving along p and then along q from the point and chain code reached is deriving along p ++ q, succeeds exactly together, and deltas add modulo n |
| PrivateDerivation.PrivateMeetsPublic | mpc/hd/derive.go:129-153 | deriving the private key level by level as BIP 32 does, and summing deltas on the public side, succeed together and reach the same key and chain code, on both curves |
| HdLayers.AccountIsParent | mpc/hd/derive_layers.go:77-98 | the address key is the account key derived on by the last two indices |
| HdLayers.AddressPublishedIff | mpc/hd/derive_layers.go:101-123 | an address exists exactly when the root parses, the key id is empty or the root's, and the path derives; the text path parses back |
| HdLayers.AddressEd25519PublishedIff | mpc/hd/ed25519.go:112-160 | the same for Ed25519 |
| HdLayers.PubHexRoundTrip | mpc/hd/derive.go:157-169 | a published root key parses back to the same point |
| HdContents.RootTextIsExact | mpc/hd/derive.go:157-169 | a root key's text is accepted exactly if it is what is published for the key, letters in either case |
| HdContents.HexReadsEitherCase | mpc/hd/derive.go:158 | a text is read as bytes exactly if, lower-cased, it is what is written for them |
| HdContents.HexIsLower | mpc/hd/derive.go:52 | published hexadecimal text is lower case, two digits a byte |
| HdContents.UncompressedIsRead | mpc/hd/derive.go:44-53 | the uncompressed form is read back as 04, x and y |
| HdContents.KeyIdInput | mpc/hd/derive.go:56-64 | the key id hashes the 64 bytes of x and then y |
| HdContents.AccountTold | mpc/hd/derive_layers.go:77-98 | an account names its index and path, hashes the very bytes it publishes, and its key is derived along the account index with the hash of the key id as chain code |
| HdContents.AddressTold | mpc/hd/derive_layers.go:101-123 | an address names change, index and path, and its key is derived along account, change and index in this order |
| HdContents.AddressText | mpc/hd/path.go:32-38 | an address path is written as m, 0, account, change and index in decimal, joined by slashes |
| HdContents.KeyIdInputEd25519 | mpc/hd/ed25519.go:95-109 | the Ed25519 key id hashes the 32 bytes of the root text |
| HdContents.AccountEd25519Told | mpc/hd/ed25519.go:112-141 | an Ed25519 account does the same over the 32 bytes it publishes |
| HdContents.AddressEd25519Told | mpc/hd/ed25519.go:143-160 | an Ed25519 address does the same |
| HdSigners.SingleSignsIff | mpc/alg_single/sign.go:44-64 | the single-key signer proceeds exactly when the path derives to a point other than the identity, with that point's private key |
| HdContents.NeverTheZeroKey | mpc/alg_single/sign.go:44-64 | no single-key signer gets the key zero, on either curve |
| HdSigners.ThresholdSignsIff | mpc/alg_ecdsa/hd_adjust.go:14-41 | a threshold signer proceeds exactly in the same case, with the same child key and share plus delta |
| HdSigners.SignersFollowAddressECDSA | mpc/alg_ecdsa/hd_adjust.go:28-41 | address, single-key and threshold signer agree exactly when the published key is not the identity |
| HdSigners.SingleSignsEd25519 | mpc/alg_single/sign.go:136-152 | the Ed25519 single-key signer proceeds exactly when the path derives |
| HdSigners.ThresholdSignsEd25519 | mpc/alg_ed25519/hd_adjust.go:11-37 | so does an Ed25519 threshold signer, with the same child key |
| HdSigners.SignersFollowAddressEd25519 | mpc/hd/ed25519.go:143-160 | on Ed25519 address, single-key and threshold signer agree outright |
| HdSigners.IdentityIsPublished | mpc/hd/derive_layers.go:111-123 | in a toy instance of the group laws (integers modulo 5, constant MAC) an address is published that neither signer accepts |
| HdSigners.AdjustPartialPubsForDelta | mpc/alg_ecdsa/hd_adjust.go:44-67 | the loop adds delta times the base point to every entry or fails on a nil one; a zero delta returns the map |
| HdSigners.ShiftedKey | mpc/alg_ed25519/hd_adjust.go:39-62 | adding delta to a key adds delta times the base point to its public key, and vanishes together with it |
| PrimeField.RootsForceZero | mpc/alg_ecdsa/hd_adjust.go:28-41 | a polynomial with as many distinct roots modulo a prime as coefficients vanishes everywhere |
| Interpolation.InterpolantIsPolynomial | mpc/alg_ecdsa/hd_adjust.go:28-41 | interpolating a polynomial's values through distinct points gives the polynomial everywhere |
| Threshold.AdjustedSharesInterpolate | mpc/alg_ecdsa/hd_adjust.go:31-36 | the adjusted shares interpolate to f(0) + delta |
| Threshold.PartialsFollowShares | mpc/alg_ecdsa/hd_adjust.go:54-66 | every adjusted partial key is its adjusted share times the base point |
| Threshold.PartialsCombine | mpc/alg_ed25519/hd_adjust.go:49-61 | the adjusted partial keys, combined with the interpolation weights, are (f(0) + delta) times the base point |
| Threshold.ThresholdMeetsAddressECDSA | mpc/alg_ecdsa/sign.go:49-63 | all threshold signers proceed or none, exactly with the single-key signer, and their key is the published one |
| Threshold.ThresholdHoldsChildECDSA | mpc/alg_ecdsa/sign.go:49-63 | shares and partial keys of the signers add up to the single-key child |
| Threshold.ThresholdMeetsAddressEd25519 | mpc/alg_ed25519/sign.go:40-60 | Ed25519 threshold signers proceed exactly when the address exists, with the published key |
| Threshold.ThresholdHoldsChildEd25519 | mpc/alg_ed25519/sign.go:40-60 | Ed25519 shares and partial keys add up to the single-key child |
| MobileNode.OneCurrentLaunch | mobile/node_mobile.go:30-90 | at most one launch in flight carries the current epoch |
| MobileNode.RunningMeans | mobile/node_mobile.go:93-97 | IsRunning is true exactly when such a launch or a held node exists |
| MobileNode.EveryNodeAccountedFor | mobile/node_mobile.go:69-89 | a launched node is the held one, or its stop was taken, or was called exactly once |
| MobileNode.NoAdoptionAfterStop | mobile/node_mobile.go:72-88 | a launch is adopted only if no StopNode ran since it began |
| MobileNode.StopBeatsLaunch | mobile/node_mobile.go:100-111 | a launch in flight when StopNode ran is never held afterwards, whatever follows |
| MobileNode.EpochsCountStops | mobile/node_mobile.go:65-80 | over every run a launch carries the current epoch exactly as long as no StopNode has come since it began |
| MobileNode.CompletionDecides | mobile/node_mobile.go:69-89 | a launch that succeeds is held and running exactly if no StopNode has come since it began; after one it is due to be stopped and running and stopFn are left alone; a failure without one ends with nothing running |
| MobileNode.HeldUntilStop | mobile/node_mobile.go:100-111 | a held node stays held and running exactly until the next StopNode |
| MobileNode.StartsWhenIdle | mobile/node_mobile.go:30-90 | StartNode begins a launch exactly if nothing runs and its preparations succeed, else it changes nothing |
| MobileNode.TakenStopIsCalled | mobile/node_mobile.go:108-110 | a stop function that was taken is called once when its turn comes |
| MobileNode.Node.StartNode | mobile/node_mobile.go:30-64 | answers "" when running, else the first complaint in order; a launch begins exactly when idle without complaint |
| MobileNode.Node.StopNode | mobile/node_mobile.go:100-111 | advances the epoch and takes the held stop function |
| MobileNode.Node.CompleteLaunch | mobile/node_mobile.go:69-89 | adopts, fails or stops the launch by comparing epochs |
| HdPath.ParseAcceptsExactly | mpc/hd/path.go:41-75 | a text parses to a triple exactly if it is one of the triple's spellings (white space, leading slash, m/, leading zeros) |
| HdPath.ParseFormat | mpc/hd/path.go:32-34 | parsing the printed form of any 32-bit triple gives the triple |
| HdPath.FormatIsCanonical | mpc/hd/path.go:41-75 | for every accepted text, printing what was read parses to the same triple |
| Decimal.ParseUint32 | mpc/hd/path.go:55-61 | the digit loop accepts exactly the numerals up to 2^32 - 1, leading zeros included |
| Strings.SplitJoin | mpc/hd/path.go:48-51 | splitting joined separator-free parts gives the parts |

## Left out

- Protocol runs (CGGMP, FROST, Paillier, zero-knowledge proofs, Birkhoff ranks above 0), ML-KEM, ML-DSA and AES-GCM: libraries behind the modelled calls.
- WebSocket client, login, reconnect, retries, logging, configuration, key store files and DTOs: I/O.
- Deletion of unconfirmed key shares, `errCh` delivery and the outbound senders: best effort or without a reader; `finish*Outbound` has no caller, so a worker's end does not close its session.
- The single-key session's own channel of capacity 1: it has no peers and no delivery loop.
- LifecycleAborts.AbortReachesWorker: does not say that a replaced session's worker is cancelled, because the code does not cancel it.
- LifecycleAborts.NoLostAbort: speaks of marks in force; a mark that has lapsed no longer stops a handler, as in the code.
- EarlyMessages.EarlyMessagesConserved: does not model the gap between the session lookup and the bucket append of one delivery, nor the gaps between the three sections of a register call; `RegisterGap` models both without lifetimes and caps. A send that waits for room counts from the moment it goes through; the waiting and the panic of a waiting sender are in `RecvChannel`.
- MessagePath.PartsJoin: the party's answers and the router's index check and partial-key branch are parameters; a handler's own error is not tied to the answer the loop sees.
- SessionTable.SessionTable.Register: of a fresh session nobody else knows yet; others acting during its replay are in `RegisterGap` and `RecvChannel`.
- AbortTable.AcceptedMarksFarApart: the last gasp itself (a message) is not modelled, only which abort may send it.
- MobileNode.Node.StartNode: the files, directories and secrets it prepares are not modelled, only whether each preparation fails and with which message.
- HdSigners.AdjustPartialPubsForDelta: models both curves' copies of the function; curve mismatch errors of the library are left out.
- MaterialPool.SignMaterialPool.Clear: one atomic step, so an acquisition racing it is not modelled.
- Sections of handlers, workers, aborts and scans are functions on one state value; aliasing of session pointers is modelled by session ids, update in place only in the table classes.
- MaterialPool.ZeroAll: walks the results the buffers hold instead of the buffers.
