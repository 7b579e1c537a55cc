# Verified model of the PulseBeam agent core

This project models the protocol core of the PulseBeam client agent and proves what its parts promise, over every input and every run. It covers:

- **Declarative reconciliation** (`native_state.rs`). A client stages wanted resources, sends revisioned records in bounded frames, and folds the server's confirmations back. `Reconciliation.dfy` gives the state machine, `NativeState.dfy` the object that updates its fields in place. Proved: no lost work, a refinement of an independent wire automaton (lifetimes never overlap, references are never reused, revisions are consecutive, reports precede withdrawals), exact memory accounting, index agreement, bounded bypass of the round robin, and convergence in two rounds with refusals standing.
- **Topic delivery** (`topic.rs`). Ordered cursors with a bounded reorder buffer, replay from a bounded history, the lossy window, and the publishers' send queues. Proved: the items an ordered subscriber emits tile the sequence space under loss, repetition, reordering, floors and rebinds; replay catches up; the bounded lossy window decides like the whole history; calls to send are conserved and handed over in order.
- **Track resources** (`track.rs`). The receive queue and its compaction, joined with the cursors end to end; the video demand projection; publication input registrations. Proved: overflow turns messages into gaps but never into silent loss, and exactly when a dropped subscription taken up again does lose silently; the demand is the least one that covers all visible views, on stable distinct slots; only the newest registration decides whether input is enabled.
- **The connection** (`agent.rs`). Attempts, retries, replacement, closing and terminal failure, with the pump that carries control frames. Proved: every generation offered is the attempt, the session, closed exactly once, or stranded by an unacceptable participant; control frames are delivered in order, one at a time, each once, and joined with the reconciler the records the host has taken are a prefix of an accepted wire history.
- **Frame slicing** (`media.rs`). Annex B streams split into access units, as a round trip.

Each machine has a value-level specification made of total functions with the branches of the source, run theorems by induction over arbitrary event sequences, and a class whose methods are proved equal to those functions.

## Where the code does less than one might expect

- `MaximumIsDeliveredTwice`, `RepetitionIsHarmless`: an ordered message numbered 2^64-1 would be delivered again on repetition; publishers never issue that number.
- `UnbindingIsHarmlessUnless`, `ResumptionExactly`: closing the signaling channel drops ordered cursors while their receivers are still read; the application then misses the numbers between the old cursor and the new frontier without a gap, unless the two are equal or compaction happens to fold the gap in. A transport replacement keeps the cursors.
- `AccountedExactly`, `UnacceptableParticipantStrands`: activation takes the attempt before the step that may refuse the participant; if it does, the generation is never closed and nothing is retried.
- `StrayIsSentUnderAnotherTrack`, `InstallKeepsOwn`: the topics, taken alone, let a publisher be bound to another track while messages are queued, and then send those messages with their old track and numbers over the new channel. The program does not get there: a reference cannot change its track (`native_state.rs:630-641`), and the end of a reference detaches its source and drops the queue (`agent/native.rs:1658-1683`) before another track can be installed. `HandedUnderOwnBinding` covers the runs that remain.
- `ServerCloseKeepsLedger`: a session closed by the server is replaced without looking for an attempt in progress; `RunLifecycle` shows that there is none, because topics run over payload channels only (`TopicsRunOverPayloads`).

## Model

| member | source | states |
|---|---|---|
| `ResourceOrder.First` | agents/pulsebeam-agent-core/src/native_state.rs:340-352 | The least resource of a non-empty set under the order of the source's ordered sets, the one a scheduling turn without a cursor takes |
| `ResourceOrder.NextAfter` | agents/pulsebeam-agent-core/src/native_state.rs:340-352 | Round robin: the least resource after the cursor, or the least of all when none follows; nothing only for the empty set |
| `Reconciliation.NextWork` | agents/pulsebeam-agent-core/src/native_state.rs:339-426 | The scheduler's pick and its preference: a preferred report first, the least retirement before targets when preferred or alone and only without a report of its own, else the round robin's next dirty target; nothing only when all queues are empty |
| `Reconciliation.DiscardShrinks` | agents/pulsebeam-agent-core/src/native_state.rs:339-398 | A turn that only drops work leaves strictly less pending work, so the frame loop cannot spin on it |
| `Reconciliation.CommitShrinks` | agents/pulsebeam-agent-core/src/native_state.rs:399-471 | A turn that sends a record leaves strictly less pending work |
| `Reconciliation.TurnShape` | agents/pulsebeam-agent-core/src/native_state.rs:339-478 | One turn stops, drops the picked work, or commits exactly the record of the picked work within revision, batch and memory bounds |
| `ReconciliationInvariants.StagedInv` | agents/pulsebeam-agent-core/src/native_state.rs:189-279 | Staging a resource, wanted or unwanted, keeps the ledger invariant: every target tracked, every row owned by one resource, queues live |
| `ReconciliationInvariants.RetriedInv` | agents/pulsebeam-agent-core/src/native_state.rs:281-288 | A retry unblocks without losing or duplicating work |
| `ReconciliationInvariants.ReportedInv` | agents/pulsebeam-agent-core/src/native_state.rs:290-332 | An execution report is queued only for a row that can carry it |
| `ReconciliationInvariants.WorkIsLive` | agents/pulsebeam-agent-core/src/native_state.rs:334-398 | Whatever the scheduler picks refers to a row and a target that exist, so every defensive branch of the frame loop is dead |
| `ReconciliationInvariants.CommittedInv` | agents/pulsebeam-agent-core/src/native_state.rs:399-471 | Committing any legal record keeps the ledger invariant |
| `ReconciliationInvariants.SettledInv` | agents/pulsebeam-agent-core/src/native_state.rs:605-768 | Any confirmation of a sent revision keeps the ledger invariant: refusal, end, resend and release of waiting targets included |
| `ReconciliationInvariants.StepInv` | agents/pulsebeam-agent-core/src/native_state.rs:189-768 | Every client or server step keeps the ledger invariant |
| `ReconciliationInvariants.RunInv` | agents/pulsebeam-agent-core/src/native_state.rs:189-768 | The ledger invariant holds after every run |
| `ReconciliationInvariants.ScheduleStops` | agents/pulsebeam-agent-core/src/native_state.rs:334-478 | A frame request that sends nothing and does not fail has emptied the dirty, retiring and execution queues |
| `ReconciliationInvariants.NoLostWork` | agents/pulsebeam-agent-core/src/native_state.rs:189-478 | After every run each wanted resource is dirty, waiting, blocked, awaiting evaluation or sent as wanted; a frame request that returns nothing leaves all queues empty, and then every target waits for a withdrawn reference, is blocked, awaits evaluation or was sent as wanted |
| `WireHistory.CommittedLegal` | agents/pulsebeam-agent-core/src/native_state.rs:399-471 | A committed record is a legal move of a specification automaton that knows only the wire: revisions, references and phases |
| `WireHistory.CommittedSeen` | agents/pulsebeam-agent-core/src/native_state.rs:399-471 | Committing moves the ledger exactly as the automaton moves, so the ledger refines the wire protocol |
| `WireHistory.SettledSeen` | agents/pulsebeam-agent-core/src/native_state.rs:605-768 | A confirmation moves the ledger exactly as the automaton sees it |
| `WireHistory.RunAccepted` | agents/pulsebeam-agent-core/src/native_state.rs:189-768 | The whole history of sends and confirmations of every run is accepted by the wire automaton, and the ledger equals its final state |
| `WireHistory.EveryConnectionAccepted` | agents/pulsebeam-agent-core/src/native_state.rs:159-768 | The same from a new connection |
| `WireHistory.ConsecutiveRevisions` | agents/pulsebeam-agent-core/src/native_state.rs:353-470 | In an accepted history the i-th record sent carries revision i |
| `WireHistory.LifetimesNeverOverlap` | agents/pulsebeam-agent-core/src/native_state.rs:216-277 | Two references of one resource: the server confirmed the end of the first before the second was sent |
| `WireHistory.ReferencesNeverReused` | agents/pulsebeam-agent-core/src/native_state.rs:720-746 | A reference whose end was confirmed never appears again |
| `WireHistory.NothingFollowsWithdrawal` | agents/pulsebeam-agent-core/src/native_state.rs:353-470 | After the record that withdraws a reference nothing is sent for it |
| `WireHistory.FirstRecordNamesReference` | agents/pulsebeam-agent-core/src/native_state.rs:399-470 | The first record of a lifetime has the revision that names its reference |
| `WireHistory.UpdatesAwaitEvaluation` | agents/pulsebeam-agent-core/src/native_state.rs:353-470 | A second declaration for a reference is sent only after the server evaluated the first |
| `WireHistory.ReportPrecedesWithdrawal` | agents/pulsebeam-agent-core/src/native_state.rs:290-332 | A pending execution report is sent before the withdrawal of its reference |
| `MemoryBudget.StepExact` | agents/pulsebeam-agent-core/src/native_state.rs:944-953 | Every step moves the retained byte count by exactly what the six collections gained or lost |
| `MemoryBudget.MemoryConserved` | agents/pulsebeam-agent-core/src/native_state.rs:63-117 | After every run the retained byte count equals the sum over targets, rows, reports, participants, tracks and session, and is within the limit |
| `MemoryBudget.AccountNeverUnderflows` | agents/pulsebeam-agent-core/src/native_state.rs:944-953 | Every amount the account gives back is contained in the total, so its checked subtraction cannot fail |
| `IdentityIndex.FirstStandsForAll` | agents/pulsebeam-agent-core/src/native_state.rs:784-823 | Comparing with the first indexed reference is enough: the index has one whenever any live row has the identity |
| `IdentityIndex.ValidSourceAgrees` | agents/pulsebeam-agent-core/src/native_state.rs:784-823 | A validated source agrees with every live row of the same track or participant, although it was compared with one only |
| `IdentityIndex.SettledAgreed` | agents/pulsebeam-agent-core/src/native_state.rs:681-719 | Confirming, changing or ending a live row keeps both indexes equal to a scan and all descriptions in agreement |
| `IdentityIndex.RunAgreed` | agents/pulsebeam-agent-core/src/native_state.rs:524-719 | Index and agreement hold after every run |
| `IdentityIndex.IndexesEqualScan` | agents/pulsebeam-agent-core/src/native_state.rs:524-719 | After every run both indexes equal a full scan of the live rows, and rows and catalog entries with one identity agree |
| `SchedulerFairness.PickIsAhead` | agents/pulsebeam-agent-core/src/native_state.rs:339-398 | Between a dirty resource and the cursor the round robin always picks something ahead of that resource or the resource itself |
| `SchedulerFairness.RunFair` | agents/pulsebeam-agent-core/src/native_state.rs:339-471 | While a resource stays dirty, the targets sent since form a strictly advancing sequence towards it, across frames and calls |
| `SchedulerFairness.BoundedBypass` | agents/pulsebeam-agent-core/src/native_state.rs:339-471 | While a resource stays dirty no other target is sent twice and two withdrawals have a target between them |
| `Convergence.FramesAlwaysEncode` | agents/pulsebeam-agent-core/src/native_state.rs:471-478 | After every run the next frame never fails to encode, provided each staged record fits a frame alone |
| `Convergence.FrameShrinks` | agents/pulsebeam-agent-core/src/native_state.rs:339-471 | Every frame leaves strictly less pending work, so draining ends |
| `Convergence.RunRefusals` | agents/pulsebeam-agent-core/src/native_state.rs:720-739 | After every run a refused declaration that is still wanted is blocked, or queued again by a retry |
| `Convergence.TwoRoundsConverge` | agents/pulsebeam-agent-core/src/native_state.rs:720-760 | After any run that left nothing to send: answers, the frames that follow, and answers to those leave every wanted resource converged or blocked, while the server refuses or ends whatever it likes and runs what it accepted |
| `NativeStates.NativeState.constructor` | agents/pulsebeam-agent-core/src/native_state.rs:159-187 | Starts as the initial state of the specification |
| `NativeStates.NativeState.Stage` | agents/pulsebeam-agent-core/src/native_state.rs:189-279 | In place: the new state and the error are those of the specification step, with all early exits |
| `NativeStates.NativeState.Retry` | agents/pulsebeam-agent-core/src/native_state.rs:281-288 | In place: unblocks a refused target |
| `NativeStates.NativeState.ReportExecution` | agents/pulsebeam-agent-core/src/native_state.rs:290-332 | In place: queues a report for an admitted receiver within the memory limit, or refuses it |
| `NativeStates.NativeState.Turn` | agents/pulsebeam-agent-core/src/native_state.rs:339-471 | In place: one iteration of the frame loop refines the specification turn |
| `NativeStates.NativeState.NextFrame` | agents/pulsebeam-agent-core/src/native_state.rs:334-478 | In place: the loop of turns yields the specification's frame and state, and terminates |
| `NativeStates.NativeState.ValidateSource` | agents/pulsebeam-agent-core/src/native_state.rs:784-823 | Computes the specification's source check from the first indexed references |
| `NativeStates.NativeState.ApplyOwned` | agents/pulsebeam-agent-core/src/native_state.rs:605-768 | In place: the specification's confirmation of one owned reference, with its error order and changes |
| `NativeStates.NativeState.ApplyParticipant` | agents/pulsebeam-agent-core/src/native_state.rs:524-559 | In place: a participant record is stored, removed or refused as specified |
| `NativeStates.NativeState.ApplyTrack` | agents/pulsebeam-agent-core/src/native_state.rs:560-592 | In place: a track record is stored, removed or refused as specified |
| `NativeStates.NativeState.Apply` | agents/pulsebeam-agent-core/src/native_state.rs:480-603 | In place: a server batch is applied record by record until the first error, with the changes of those applied |
| `OrderedDelivery.DrainTiles` | agents/pulsebeam-agent-core/src/topic.rs:1505-1520 | Draining delivers exactly the contiguous run at the cursor and leaves only numbers beyond it |
| `OrderedDelivery.DataAdvances` | agents/pulsebeam-agent-core/src/topic.rs:1478-1503 | Any issuable message advances an adopted cursor by exactly what is emitted and keeps the buffer at most 256 and above the cursor |
| `OrderedDelivery.FloorAdvances` | agents/pulsebeam-agent-core/src/topic.rs:1028-1039 | A floor ahead of the cursor emits the gap up to it and then whatever the buffer can deliver |
| `OrderedDelivery.HandledAdvances` | agents/pulsebeam-agent-core/src/topic.rs:1018-1042 | Every body advances the cursor by exactly what it emits; what is emitted and buffered is what was published |
| `OrderedDelivery.HoleIsRequested` | agents/pulsebeam-agent-core/src/topic.rs:1478-1503 | A message ahead of the cursor delivers nothing and asks for the missing number |
| `OrderedDelivery.CoveredExactlyOnce` | agents/pulsebeam-agent-core/src/topic.rs:1478-1520 | Tiling read pointwise: each number of the interval is covered by one item and no other number by any |
| `OrderedDelivery.EmittedTiles` | agents/pulsebeam-agent-core/src/topic.rs:1018-1068 | Over every run with loss, repetition, reordering, floors and rebinds, the items emitted tile from the adopted frontier to the cursor |
| `OrderedDelivery.NothingBeforeFrontier` | agents/pulsebeam-agent-core/src/topic.rs:1018-1026 | Before a frontier is adopted nothing is emitted, buffered or requested |
| `OrderedDelivery.MaximumIsDeliveredTwice` | agents/pulsebeam-agent-core/src/topic.rs:1485-1490 | The counterexample: number 2^64-1 does not move the cursor and is delivered again |
| `OrderedDelivery.RepetitionIsHarmless` | agents/pulsebeam-agent-core/src/topic.rs:1485-1520 | Repeating a message keeps the tiling at every cursor if and only if its number is below 2^64-1 |
| `OrderedDelivery.Delivery.constructor` | agents/pulsebeam-agent-core/src/topic.rs:1466-1470 | A cursor starts without a frontier |
| `OrderedDelivery.Delivery.Drain` | agents/pulsebeam-agent-core/src/topic.rs:1505-1520 | In place: the loop delivers what the specification says and reports the request |
| `OrderedDelivery.Delivery.Accept` | agents/pulsebeam-agent-core/src/topic.rs:1478-1503 | In place: refines the specification of a received message |
| `OrderedDelivery.Delivery.Handle` | agents/pulsebeam-agent-core/src/topic.rs:1018-1045 | In place: frontier, floor and message, with the gap before the messages |
| `LossyDelivery.RunRemembers` | agents/pulsebeam-agent-core/src/topic.rs:1445-1464 | The window holds exactly the arrivals at or above its floor, and the floor follows the highest arrival |
| `LossyDelivery.DeliveredExactly` | agents/pulsebeam-agent-core/src/topic.rs:1445-1464 | An arrival is delivered exactly when it is the first of its number and no earlier arrival is 256 or more ahead: the bounded window decides like the whole history |
| `LossyDelivery.DeliveredAtMostOnce` | agents/pulsebeam-agent-core/src/topic.rs:1445-1464 | No number is delivered twice |
| `LossyDelivery.WindowBounded` | agents/pulsebeam-agent-core/src/topic.rs:1445-1464 | The window never holds more than 256 numbers |
| `LossyDelivery.LossyWindow.Accept` | agents/pulsebeam-agent-core/src/topic.rs:1452-1463 | In place: refines the window specification and tells whether to deliver |
| `LossyDelivery.LatestOnlyAdvances` | agents/pulsebeam-agent-core/src/topic.rs:994-1007 | Latest mode delivers exactly the arrivals newer than all before them |
| `Replay.RecordedArchives` | agents/pulsebeam-agent-core/src/topic.rs:796-804 | The history stays the last min(n, 256) messages of the binding, and exhausted numbers change nothing |
| `Replay.AnswerShape` | agents/pulsebeam-agent-core/src/topic.rs:1146-1173 | An answer is a floor exactly when the request is older than the history, then every archived message from there on in order |
| `Replay.AnswerCatchesUp` | agents/pulsebeam-agent-core/src/topic.rs:1146-1173 | A whole answer to the subscriber's own request leaves it at the publisher's next number with an empty buffer |
| `Replay.AnswerDeliversLog` | agents/pulsebeam-agent-core/src/topic.rs:1146-1173 | What it delivers is one gap for what the history lost, if anything, and then the log itself, nothing else |
| `Replay.FirstRound` | agents/pulsebeam-agent-core/src/topic.rs:1294-1322 | With at most 256 auxiliary sends the first answer leaves at most one message undelivered |
| `Replay.TwoRoundsCatchUp` | agents/pulsebeam-agent-core/src/topic.rs:1294-1322 | A second request then completes the recovery |
| `Replay.ConversationFaithful` | agents/pulsebeam-agent-core/src/topic.rs:912-1072 | Publisher, lossy reordering channel and subscriber together: in every run the subscriber has the log from where it joined, tiled by published messages and gaps, and has not run ahead |
| `Replay.EveryNumberAccountedFor` | agents/pulsebeam-agent-core/src/topic.rs:912-1072 | Read pointwise: each number since joining is covered by exactly one item, which carries the published payload or is a gap |
| `SendQueue.StepConserves` | agents/pulsebeam-agent-core/src/topic.rs:705-906 | Every send, completion and change of binding conserves the calls to send |
| `SendQueue.SendsConserved` | agents/pulsebeam-agent-core/src/topic.rs:607-622 | In every run calls to send = acknowledged + dropped + queued + in flight, over all publishers |
| `SendOrder.MovedHeadOk` | agents/pulsebeam-agent-core/src/topic.rs:1247-1288 | Dispatch moves the head of the queue to the end of what was sent and keeps the publisher's invariant |
| `SendOrder.ExtendedOk` | agents/pulsebeam-agent-core/src/topic.rs:788-806 | An accepted send extends a publisher's line by a message newer than all before it, also when it supersedes one |
| `SendOrder.StepInv` | agents/pulsebeam-agent-core/src/topic.rs:705-906 | Order, bounds, single flight and busyness are kept by every event |
| `SendOrder.SentInOrder` | agents/pulsebeam-agent-core/src/topic.rs:1247-1288 | In every run a publisher hands messages over in strictly increasing order of binding and number |
| `SendOrder.QueuesBounded` | agents/pulsebeam-agent-core/src/topic.rs:769-806 | In every run queue and flight hold at most 256, latest publishers queue at most one, and a message waits only behind a flight or for a channel |
| `SendOrder.CompletionAnswersOne` | agents/pulsebeam-agent-core/src/topic.rs:1228-1245 | In every run a completion answers at most one publisher |
| `SendOrder.ArchiveMatchesSent` | agents/pulsebeam-agent-core/src/topic.rs:796-804 | In every run the archive and what was sent under the current binding agree with the binding's log |
| `SendBindings.InstallKeepsOwn` | agents/pulsebeam-agent-core/src/topic.rs:410-420 | Installing a track keeps every message under its own binding if and only if no message waits for another track |
| `SendBindings.InstallSends` | agents/pulsebeam-agent-core/src/topic.rs:410-420 | The send an installation starts carries the installed track if and only if it starts none or the next in line carries it |
| `SendBindings.HandedUnderOwnBinding` | agents/pulsebeam-agent-core/src/topic.rs:1247-1288 | After every run without such a stray, a step hands messages over under their own binding if and only if it installs no track over waiting messages of another |
| `SendBindings.StrayIsSentUnderAnotherTrack` | agents/pulsebeam-agent-core/src/topic.rs:410-420 | The counterexample, for every publisher and any two tracks: a run in which a message numbered under one is sent while the other is bound |
| `TopicSends.Topics.Dispatch` | agents/pulsebeam-agent-core/src/topic.rs:1247-1288 | In place: starts the next send unless one is in flight or there is no channel |
| `TopicSends.Topics.Send` | agents/pulsebeam-agent-core/src/topic.rs:705-818 | In place: refuses for the source's reasons in its order, or enqueues and dispatches, with counters |
| `TopicSends.Topics.PendingPublisher` | agents/pulsebeam-agent-core/src/topic.rs:1228-1245 | Finds the publisher a completion answers by searching all |
| `TopicSends.Topics.Complete` | agents/pulsebeam-agent-core/src/topic.rs:824-906 | In place: an answered send is acknowledged or dropped and the next one dispatched; any other completion changes nothing |
| `TopicSends.Topics.InstallPublisher` | agents/pulsebeam-agent-core/src/topic.rs:371-421 | In place: binds a channel and a track, restarting the numbers for a new track, and dispatches |
| `TopicSends.Topics.Detach` | agents/pulsebeam-agent-core/src/topic.rs:468-519 | In place: drops the publisher's load and binding |
| `TopicSends.Topics.Unbind` | agents/pulsebeam-agent-core/src/topic.rs:1197-1226 | In place: the loop drops every publisher's load |
| `TopicSends.Topics.Reconcile` | agents/pulsebeam-agent-core/src/topic.rs:595-651 | In place: the loop drops publishers no longer listed and adds the new ones |
| `TopicSends.Topics.Recover` | agents/pulsebeam-agent-core/src/topic.rs:1146-1173 | The loop over the history computes the answer of the specification |
| `DataReceivers.CompactedOf` | agents/pulsebeam-agent-core/src/track.rs:359-390 | Compaction folds the first two items of one track into one gap and leaves every other track as it was |
| `DataReceivers.CompactedTiles` | agents/pulsebeam-agent-core/src/track.rs:359-390 | What a track tiled before compaction, read and queued together, it still tiles |
| `DataReceivers.OverflowExactly` | agents/pulsebeam-agent-core/src/track.rs:331-357 | A working receiver overflows exactly when it is not lossy, full, and all 257 arrivals are from different tracks |
| `DataReceivers.PushedOk` | agents/pulsebeam-agent-core/src/track.rs:331-357 | Every push keeps the queue within 256, a failed receiver empty and a latest receiver to one arrival per track |
| `DataReceivers.PushedMembers` | agents/pulsebeam-agent-core/src/track.rs:331-390 | A push never invents a message |
| `DataReceivers.DataReceiver.Push` | agents/pulsebeam-agent-core/src/track.rs:331-357 | In place: refines the push of each mode |
| `DataReceivers.DataReceiver.Compact` | agents/pulsebeam-agent-core/src/track.rs:359-390 | In place: one scan with a first-index map finds the pair the specification folds, or reports that there is none |
| `DataReceivers.DataReceiver.Read` | agents/pulsebeam-agent-core/src/track.rs:1265-1275 | In place: takes the oldest arrival, or reports the failure |
| `EndToEnd.PushTiles` | agents/pulsebeam-agent-core/src/track.rs:331-390 | One push extends its own track by its item and leaves the others' intervals, with or without compaction |
| `EndToEnd.StepTrack` | agents/pulsebeam-agent-core/src/track.rs:1277-1325 | Arrivals on any track, reads, transport changes, dropped cursors and failures keep a track complete, provided a dropped track is taken up where its cursor stood |
| `EndToEnd.NoSilentLoss` | agents/pulsebeam-agent-core/src/agent.rs:685-711 | Over every run and any number of tracks, torn down subscriptions included, what was read plus what is queued tiles each track from where the receiver joined to its position, as long as dropped tracks are taken up where they stood |
| `EndToEnd.NothingInvented` | agents/pulsebeam-agent-core/src/track.rs:1277-1325 | Every message the application gets was emitted by the cursor of its track |
| `EndToEnd.OpeningIsComplete` | agents/pulsebeam-agent-core/src/track.rs:1216-1244 | A receiver opened on any subscription starts complete |
| `Resumption.ResumptionExactly` | agents/pulsebeam-agent-core/src/topic.rs:1207-1222 | Taking up a dropped track at a message keeps the application's view complete if and only if the cursor stood there, or a full queue folds the message into the track's one item and it is not behind; it fails the receiver exactly when the full queue holds different tracks and not this one |
| `Resumption.UnbindingIsHarmlessUnless` | agents/pulsebeam-agent-core/src/topic.rs:1197-1226 | Unbinding a subscription keeps a working receiver's view of a track complete in every continuation if and only if the track was not followed yet, or the transport was replaced and its cursor was there |
| `VideoDemands.JoinIsLeast` | agents/pulsebeam-agent-core/src/track.rs:1139-1158 | The aggregation step is the least demand covering both, and keeps fixed delays well formed |
| `VideoDemands.JoinLaws` | agents/pulsebeam-agent-core/src/track.rs:1139-1158 | It is idempotent, commutative and associative |
| `VideoDemands.AggregateUnique` | agents/pulsebeam-agent-core/src/track.rs:1133-1159 | The aggregate of a selector's visible views does not depend on the order in which they are visited |
| `VideoDemands.OrderUnique` | agents/pulsebeam-agent-core/src/track.rs:1161-1175 | The order in which wanted selectors are served is unique: by participant, then title |
| `VideoDemands.AllocatedKeeps` | agents/pulsebeam-agent-core/src/track.rs:1171-1196 | Allocation keeps every held slot, keeps slots distinct, and serves every selector unless slots run out |
| `VideoDemands.ExhaustedOnlyWhenFull` | agents/pulsebeam-agent-core/src/track.rs:1176-1184 | Allocation gives up only when all 2^32 slots are held |
| `VideoDemands.RunInv` | agents/pulsebeam-agent-core/src/track.rs:1077-1199 | In every run distinct selectors hold distinct slots and delays stay well formed |
| `VideoDemands.SlotIsStable` | agents/pulsebeam-agent-core/src/track.rs:1171-1196 | A selector keeps its slot over every run in which some view, hidden or not, claims it at each projection |
| `VideoDemands.VideoViews.Observe` | agents/pulsebeam-agent-core/src/track.rs:1105-1123 | In place: refuses ill-formed delays and released owners |
| `VideoDemands.VideoViews.Group` | agents/pulsebeam-agent-core/src/track.rs:1133-1159 | The loop computes, for each visible selector, the least demand covering its visible views |
| `VideoDemands.VideoViews.Allot` | agents/pulsebeam-agent-core/src/track.rs:1173-1185 | In place: the loop allots the least free slots; what was allotted stays when slots run out |
| `VideoDemands.VideoViews.InOrder` | agents/pulsebeam-agent-core/src/track.rs:1161-1175 | Lists selectors in the order of the source's maps |
| `VideoDemands.VideoViews.Project` | agents/pulsebeam-agent-core/src/track.rs:1129-1199 | In place: one subscription for each wanted selector with its slot and aggregate, in slot order |
| `PublicationInputs.SupersededIsInert` | agents/pulsebeam-agent-core/src/track.rs:663-688 | An operation superseded by a registration or a release never changes anything again, in any later state |
| `PublicationInputs.CompletesOnce` | agents/pulsebeam-agent-core/src/track.rs:671-688 | A completion takes effect at most once, in any later state |
| `PublicationInputs.EnabledExactly` | agents/pulsebeam-agent-core/src/track.rs:309-311 | After the newest registration the input is enabled exactly when that registration, judged by the events that name it alone, succeeded with media present and the owner is not muted |
| `PublicationInputs.EnabledAfterUpdate` | agents/pulsebeam-agent-core/src/track.rs:575-596 | The same after a direct update |
| `PublicationInputs.DisabledUntilRegistered` | agents/pulsebeam-agent-core/src/track.rs:529-573 | A claimed publication without a registration is disabled whatever happens |
| `PublicationInputs.MuteHolds` | agents/pulsebeam-agent-core/src/track.rs:784-796 | Muting holds over every run until the owner is muted anew, begins another registration or is released |
| `PublicationInputs.LiveHasItsCompletion` | agents/pulsebeam-agent-core/src/track.rs:671-688 | A successful verdict comes from a completion that named the registration with success and media, and no failure named it |
| `PublicationInputs.Publications.Update` | agents/pulsebeam-agent-core/src/track.rs:575-596 | In place: supersedes and settles at once, or refuses |
| `PublicationInputs.Publications.Begin` | agents/pulsebeam-agent-core/src/track.rs:598-653 | In place: issues an operation that can complete, or refuses a foreign input, a released owner or exhausted numbers |
| `PublicationInputs.Publications.Complete` | agents/pulsebeam-agent-core/src/track.rs:671-688 | In place: settles the pending registration it names and tells whether input is enabled; otherwise nothing |
| `PublicationInputs.Publications.Fail` | agents/pulsebeam-agent-core/src/track.rs:770-782 | In place: disables the registration it names; otherwise nothing |
| `PublicationInputs.Publications.SetMuted` | agents/pulsebeam-agent-core/src/track.rs:784-796 | In place: mutes or unmutes the owner |
| `ConnectionInvariants.FailedAttemptLifecycle` | agents/pulsebeam-agent-core/src/agent.rs:1951-1987 | A failing attempt is closed once and turns into a retry or a terminal failure |
| `ConnectionInvariants.BegunCloseLifecycle` | agents/pulsebeam-agent-core/src/agent.rs:2217-2290 | Closing closes attempt and session once each and excludes a new attempt until it ends |
| `ConnectionInvariants.ReplacedLifecycle` | agents/pulsebeam-agent-core/src/agent.rs:1848-1888 | Activation closes the replaced session once |
| `ConnectionInvariants.ActivatedLifecycle` | agents/pulsebeam-agent-core/src/agent.rs:1807-1927 | Activation keeps the ledger: the candidate becomes the session, or is recorded as stranded when its participant is not acceptable |
| `ConnectionInvariants.ActivatedStrands` | agents/pulsebeam-agent-core/src/agent.rs:1824-1847 | Activation strands the generation if and only if the attempt is ready and its participant is not acceptable |
| `ConnectionInvariants.ServerCloseKeepsLedger` | agents/pulsebeam-agent-core/src/agent/native.rs:1488-1491 | The replacement started when the server closes the session keeps the ledger if and only if no attempt is in progress |
| `ConnectionInvariants.StepLifecycle` | agents/pulsebeam-agent-core/src/agent.rs:913-2350 | Every event keeps the lifecycle invariant |
| `ConnectionInvariants.RunLifecycle` | agents/pulsebeam-agent-core/src/agent.rs:913-2350 | In every run attempt and retry exclude each other, closing and terminal failure exclude both, and each generation offered is exactly one of the attempt, the session, closed once, or stranded by an unacceptable participant |
| `ConnectionInvariants.AccountedExactly` | agents/pulsebeam-agent-core/src/agent.rs:1807-1847 | In every run no generation is lost if and only if no event completes an attempt whose participant is not acceptable |
| `ConnectionInvariants.UnacceptableParticipantStrands` | agents/pulsebeam-agent-core/src/agent.rs:1824-1847 | The counterexample: an unacceptable participant leaves the agent wanted with nothing in progress and the generation never closed |
| `ConnectionInvariants.TopicsRunOverPayloads` | agents/pulsebeam-agent-core/src/agent.rs:1672-1693 | A closed channel that a topic ran over is one of the session's payload channels, so the branch that would start an unfenced replacement is dead |
| `ControlPump.StaleCompletionIgnored` | agents/pulsebeam-agent-core/src/agent.rs:1744-1802 | While the session is not fenced, a completion for another generation, channel or operation than the newest send changes nothing |
| `ControlPump.RunSound` | agents/pulsebeam-agent-core/src/agent.rs:1744-2191 | The pump invariant holds after every run with an honest host |
| `ControlPump.OneOutstanding` | agents/pulsebeam-agent-core/src/agent.rs:2095-2172 | While the session is not fenced, every control send but the newest has been completed |
| `ControlPump.RejectedIsResentFirst` | agents/pulsebeam-agent-core/src/agent.rs:1776-1802 | After a rejected send the next one carries the same frame; after a delivered one, the next frame produced |
| `ControlPump.RejectedIsRemembered` | agents/pulsebeam-agent-core/src/agent.rs:2174-2191 | While the session is not fenced a rejected frame stays pending with a timer set that leads to sending it again |
| `ControlPump.DeliveredExactlyOnceInOrder` | agents/pulsebeam-agent-core/src/agent.rs:2062-2172 | The frames the host took are exactly a prefix of those produced, at most one behind |
| `Signaling.HistorySends` | agents/pulsebeam-agent-core/src/native_state.rs:334-478 | The records sent in a client's wire history are exactly those of its frames |
| `Signaling.HostTakesAcceptedPrefix` | agents/pulsebeam-agent-core/src/agent.rs:2132-2171 | Pump and reconciler joined: while the session is not fenced the host has taken exactly the encodings of the first frames, at most one behind, and their records are a prefix of those sent in a history the wire automaton accepts |
| `Agents.Agent.StartAttempt` | agents/pulsebeam-agent-core/src/agent.rs:1003-1048 | In place: a new generation unless a terminal failure forbids it |
| `Agents.Agent.FenceSignaling` | agents/pulsebeam-agent-core/src/agent.rs:1243-1258 | In place: stops the session's control traffic for good |
| `Agents.Agent.FailAttempt` | agents/pulsebeam-agent-core/src/agent.rs:1951-1987 | In place: closes the candidate and schedules a retry or fails for good |
| `Agents.Agent.FailTerminal` | agents/pulsebeam-agent-core/src/agent.rs:1989-2013 | In place: through the attempt if there is one, else fences and stops |
| `Agents.Agent.TransportLost` | agents/pulsebeam-agent-core/src/agent.rs:1143-1190 | In place: retry for a candidate, replacement for a session |
| `Agents.Agent.Reconnect` | agents/pulsebeam-agent-core/src/agent.rs:984-1001 | In place: clears retry and failure and starts over |
| `Agents.Agent.BeginClose` | agents/pulsebeam-agent-core/src/agent.rs:2217-2290 | In place: closes what is in progress and waits for it |
| `Agents.Agent.FinishDisconnected` | agents/pulsebeam-agent-core/src/agent.rs:2333-2350 | In place: disconnected, or a fresh attempt if wanted again |
| `Agents.Agent.ApplyDesired` | agents/pulsebeam-agent-core/src/agent.rs:913-969 | In place: connects, closes, or asks for reconciliation as wanted |
| `Agents.Agent.TryActivate` | agents/pulsebeam-agent-core/src/agent.rs:1807-1927 | In place: takes the attempt, then installs the session and replays early messages until one is malformed, or loses the attempt to an unacceptable participant; reports both failures |
| `Agents.Agent.ChannelClosed` | agents/pulsebeam-agent-core/src/agent.rs:1593-1695 | In place: a closed channel fails the candidate or replaces the session |
| `Agents.Agent.InstallTopic` | agents/pulsebeam-agent-core/src/agent/native.rs:1634-1657 | In place: a topic runs only over a usable payload channel |
| `Agents.Agent.HandleReply` | agents/pulsebeam-agent-core/src/agent.rs:1334-1422 | In place: a reply moves the attempt on, fails it, or settles a close |
| `Agents.Agent.HandleMessage` | agents/pulsebeam-agent-core/src/agent.rs:1696-1743 | In place: early messages are buffered up to 64, others go to the session |
| `Agents.Agent.ReconcileCurrent` | agents/pulsebeam-agent-core/src/agent.rs:2095-2172 | In place: resends the rejected frame, or sends the next one, or neither |
| `Agents.Agent.HandleSent` | agents/pulsebeam-agent-core/src/agent.rs:1744-1775 | In place: acknowledges the pending frame it names, nothing else |
| `Agents.Agent.HandleSendFailed` | agents/pulsebeam-agent-core/src/agent.rs:1776-1802 | In place: marks the pending frame it names for resending, nothing else |
| `Agents.Agent.HandleTimer` | agents/pulsebeam-agent-core/src/agent.rs:1424-1461 | In place: retry, pump or signal retry, by timer |
| `Agents.Agent.ReleasePayload` | agents/pulsebeam-agent-core/src/agent/native.rs:894-904 | In place: only a shut payload channel is released |
| `FrameSlicer.FirstStartIsFirst` | agents/pulsebeam-agent-native/src/media.rs:11-30 | The scanned start is the first recognised start code at or after the position |
| `FrameSlicer.FrameEndsAtFirstStarter` | agents/pulsebeam-agent-native/src/media.rs:32-73 | A frame ends at the first access-unit starter that has a slice before it, and at no other unit |
| `FrameSlicer.SplitRoundTrips` | agents/pulsebeam-agent-native/src/media.rs:50-73 | With a recognised start code the frames concatenate to the input; without one there is no frame |
| `FrameSlicer.BoundariesAreUnits` | agents/pulsebeam-agent-native/src/media.rs:50-73 | Every boundary between frames is the start of a unit and every frame but the last holds a slice |
| `FrameSlicer.H264FrameSlicer.NextNalu` | agents/pulsebeam-agent-native/src/media.rs:11-30 | The nested scanning loops find the next unit of the specification |
| `FrameSlicer.H264FrameSlicer.Next` | agents/pulsebeam-agent-native/src/media.rs:50-73 | In place: yields the frame up to the specification's stop and moves the position there |
| `FrameSlicer.H264FrameSlicer.Collect` | agents/pulsebeam-agent-native/src/media.rs:50-73 | Iterating yields exactly the frames of the unit list |

## Left out

- Protobuf encoding, decoding and field validation: sizes and encodability are functions of a `Codec` parameter, and server batches are assumed to have passed validation, which also rules out records without payload.
- Byte sums saturate at the machine's word in the source; the limit is far below it, so the model adds without saturation.
- The validation of the bootstrap participant in `NativeState::new` is a flag on the candidate.
- Ticketed data sends (`topic/admission.rs`): un-ticketed sends only; the tickets parked for a publisher enter as a number.
- Saturation of the 64-bit statistics counters, log lines and snapshot versions.
- TopicSends.Topics.Complete: requires that two publishers never wait for the same operation, which `SendOrder.RunInv` proves of every run.
- EndToEnd.NoSilentLoss: the identity of a track (participant and track id) is fixed while its cursor lives; a track whose participant is renamed would count as another track.
- PublicationInputs.Publications.Begin: publications are kept by owner instead of by track, each owner having at most one; slot names are not modelled.
- Agents.Agent.ReconcileCurrent: the frame is a parameter; `Signaling` takes it from the reconciler, whose staging of wanted resources appears there as client moves.
- ControlPump.RunSound: assumes that the host completes each operation once, on the channel it was given for.
- Retry delays and jitter, authorization renewal, media allocation and retirement, topic probes' timing: they take numbers from the shared counters and nothing else in this model.
- HTTP requests and responses, session descriptions, RTP preparation, the foreign function interface, the room server and the other language bindings.
- The audio projection and media observations, which would only add members like those of the video projection and the publication inputs.
- Effect order: effects that the model counts are Close and control sends; cancellations of timers and requests are not recorded.
