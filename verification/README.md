# Verification of selected CAF components

A Dafny model of six parts of the C++ Actor Framework and proofs about them.
Each part follows the same plan: functions say what a step does, lemmas prove
what every run keeps or computes, and classes with loops and mutable fields are
proved to do exactly those steps.

1. **Vector-clock annotator** (`VectorLog`, `CausalHistory`, `AnnotatedRuns`,
   `EventMatching`, `Annotator`, `GroupReplay`, `HeardSends`, `AnnotatedLogs`).
   The second pass of `caf-vec` replays logs of typed events. A run interleaves
   the passes of any number of nodes, which hear any earlier broadcast sends in
   any order and may wait for them. No pass loses a send, and the stamps they
   print describe causality exactly.
2. **Credit-driven broadcast streaming** (`OutboundPaths`, `Broadcast`,
   `BroadcastRuns`, `BroadcastLaws`, `StreamManager`). A central buffer, one
   cache with a filter per path, and paths that ship batches against credit.
3. **Dining philosophers** (`Philosophers`, `PhilosopherMail`,
   `PhilosopherMeals`, `PhilosopherTable`). A ring of any size from two: the
   protocol over an unordered bag of messages, the same with a mailbox per
   actor and skipped messages, and the actors as objects.
4. **Copy-on-write pointers** (`CountedMemory`, `CowHandles`, `CowValues`,
   `ManagedPointers`, `SharedRelease`). Reference-counted objects shared by
   handles, first as operations of one thread, then as the interleaved atomic
   accesses of many.
5. **Type-level algorithms and inspectors** (`InterfaceMatch`,
   `ActorComposition`, `Inspection`, `InspectionRoundTrip`, `InspectionSafety`,
   `InspectionForms`, `InspectionReading`, `InspectionCalls`, `Inspectors`).
   Types are data here; the inspectors work against an ideal token stream that
   records every call.
6. **Smaller supports** (`CurlPool`, `ByteAddress`, `Dictionary`).

`Basics` holds the few definitions that several modules share.

Where code and documentation disagree the model follows the code:

- `composed_type` is documented as a list comprehension, but drops all matches
  of a clause after the first. `ActorComposition.AgreesWithDocumentation` gives
  the exact condition under which both agree, and
  `ActorComposition.DistinctInputsAreNotEnough` a case where they differ. The
  documentation does not say what a `result` equals; the condition reads it as
  the code does, and the case differs from the other reading as well.
- `imi` states equal lengths as a precondition. The results for other lengths,
  including those for which no specialization exists, are proved as well.
- The release of a reference is documented as a decrement; the code skips it
  when it finds the count to be 1. `SharedRelease` models the code.

`dafny verify dfyconfig.toml` checks the whole project.

## Model

| member | source | states |
|---|---|---|
| `AnnotatedRuns.StampsDecideCausality` | tools/caf-vec.cpp:656-726 | In every interleaving of any number of nodes: for two different printed entries a and b, b's stamp at a's owner has reached a's own tick exactly when a reaches b through entity order, matched send/receive, spawn/init and scoped-terminate/parent steps |
| `AnnotatedRuns.StampOrderIsCausalOrder` | tools/caf-vec.cpp:656-726 | Comparing whole stamps decides the same relation, and no two printed entries carry equal stamps |
| `AnnotatedRuns.OwnComponentCounts` | tools/caf-vec.cpp:659-724 | An entity's own component equals the number of its non-internal entries, and no clock, broadcast send or stored spawn is ahead of it there |
| `AnnotatedRuns.ClocksAdvance` | tools/caf-vec.cpp:659-724 | Every clock is monotone, and own components change by local ticks only, also across receive, init and scoped-terminate merges |
| `AnnotatedRuns.RunExact` | tools/caf-vec.cpp:656-726 | The invariant behind these: in every reachable state each clock, printed stamp and stored stamp counts, per entity, the printed entries of the causal past it stands for |
| `AnnotatedRuns.StepEffect` | tools/caf-vec.cpp:663-725 | What one entry does to the clocks and stores of its node: a tick unless internal, at most one merge with the stamp of a stored or received event, and a scoped terminate that changes the parent's clock only |
| `CausalHistory.JoinIsUnion` | tools/caf-vec.cpp:109-114 | Merging by component-wise maximum is the union of prefix-closed pasts |
| `CausalHistory.PastIsReaches` | tools/caf-vec.cpp:678-724 | The inductively defined past of an entry is exactly the set of entries with a path to it |
| `CausalHistory.TickInStamp` | tools/caf-vec.cpp:663-664 | The count of the owner's entries in a past reaches an entry's own tick exactly when the entry is in that past |
| `EventMatching.RunPaired` | tools/caf-vec.cpp:678-724 | In every run the annotator pairs events as the logs alone prescribe: a receive with an earlier send of equal fields (the first one of the own node if it comes from there), an init with the first unclaimed spawn of its ID on the node or with none if there is none, a terminate of a scoped actor with the parent its init recorded |
| `EventMatching.SpawnsClaimedOnce` | tools/caf-vec.cpp:695-714 | No spawn is matched with two inits |
| `VectorLog.FirstSend` | tools/caf-vec.cpp:683-684 | The first stored send with equal fields, or the end |
| `VectorLog.FirstSpawn` | tools/caf-vec.cpp:701-702 | The first stored spawn with the given ID, or the end |
| `Annotator.Merge` | tools/caf-vec.cpp:109-114 | The loop computes the component-wise maximum |
| `Annotator.SecondPass.constructor` | tools/caf-vec.cpp:599-624 | Zero clocks for the local entities and empty stores |
| `Annotator.SecondPass.FindSend` | tools/caf-vec.cpp:683-684 | The search loop returns the first stored send with equal fields |
| `Annotator.SecondPass.FindSpawn` | tools/caf-vec.cpp:701-702 | The search loop returns the first stored spawn with the ID |
| `Annotator.SecondPass.FetchMessage` | tools/caf-vec.cpp:634-654 | Takes sends from the mailbox up to the first with equal fields and keeps all of them in flight; if there is none, the mailbox is consumed and the receive waits |
| `Annotator.SecondPass.Deliver` | tools/caf-vec.cpp:642-652 | A send that arrives while a receive waits is kept in flight and, if its fields are equal, completes the receive: merge, print, go on |
| `Annotator.SecondPass.Receive` | tools/caf-vec.cpp:678-691 | In-place receive equals the specified step: local match first, else fetch, then merge; no send is erased, neither from flight nor, behind the match, from the mailbox |
| `Annotator.SecondPass.Initialize` | tools/caf-vec.cpp:695-714 | In-place init equals the specified step: merge, remember the parent of a scoped actor unless one is remembered, erase the spawn |
| `Annotator.SecondPass.Terminate` | tools/caf-vec.cpp:716-724 | In-place terminate equals the specified step: merge into the parent's clock and forget the scoped actor |
| `Annotator.SecondPass.Handle` | tools/caf-vec.cpp:668-726 | Dispatch over the event types equals the specified step |
| `Annotator.SecondPass.Process` | tools/caf-vec.cpp:656-726 | One loop iteration advances the replay by exactly one specified step, including the unknown-logger failure and the receive that has to wait |
| `Annotator.SecondPass.Run` | tools/caf-vec.cpp:656-726 | The loop over the log is a replay of the entries, stopping only when the log ends, a receive waits or a logger is unknown |
| `GroupReplay.GroupRunIsRun` | tools/caf-vec.cpp:626-726 | The passes over all logs as they run side by side: each works through its log, hears broadcasts one by one, and may wait in a receive until the awaited send arrives. Every such run is a run in the sense of the causality theorems, with the same entries and printed lines per node |
| `GroupReplay.WaitingEnds` | tools/caf-vec.cpp:634-654 | A receive that waits, heard other sends meanwhile and then hears the awaited one ends exactly as a receive that finds all of them in its mailbox |
| `GroupReplay.BeginsToWait` | tools/caf-vec.cpp:678-691 | A receive without a match has only ticked its clock and taken its mailbox into flight |
| `AnnotatedLogs.PrintedLinesDecideCausality` | tools/caf-vec.cpp:656-740 | End to end for the logs of any number of nodes, with messages between them: there is one reading of the logs (a merge of the completed entries of all nodes, in log order per node, with every event paired as the logs prescribe, that yields the printed lines) such that for all pairs of different lines printed anywhere, comparing the stamps decides happened-before |
| `AnnotatedLogs.PairingIsDetermined` | tools/caf-vec.cpp:678-724 | The entries of a reading and the pairing of its receives determine the pairing of all inits and terminates |
| `AnnotatedLogs.OneLogOneReading` | tools/caf-vec.cpp:678-724 | For a single log the reading is unique: all pairings, receives included, are a function of the log |
| `AnnotatedLogs.ReplayIsGroupRun` | tools/caf-vec.cpp:656-726 | The loop over one log, without other nodes, is such a run of the group of one |
| `HeardSends.NothingHeardIsLost` | tools/caf-vec.cpp:634-691 | In every run of a group and at any time: the sends in flight and the mailbox of a pass hold, as a multiset, exactly the broadcasts that reached it and the sends that its own log produced. The heard ones are in order of arrival, and the mailbox holds the latest of them |
| `HeardSends.WaitsExactlyWithoutMatch` | tools/caf-vec.cpp:678-691 | In every run of a group: a pass has failed exactly if its latest entry names an unknown logger, and waits exactly if its latest entry is a receive and no send that it heard or logged so far has equal fields |
| `HeardSends.ReceiveMergesFirstMatch` | tools/caf-vec.cpp:678-691 | A receive that need not wait merges the first match among the sends in flight followed by the mailbox, ticks and changes one clock, and prints one line |
| `HeardSends.WaitingMergesFirstArrival` | tools/caf-vec.cpp:634-654 | A receive that waits merges the first matching send to arrive, without a second tick; other arrivals change nothing but the sends in flight |
| `OutboundPaths.EmitShips` | libcaf_core/caf/outbound_path.hpp:80-104 | One emit, for every cache, credit and batch size: batches followed by the remaining cache are the old batches followed by the old cache, IDs are consecutive, every batch is full except possibly a forced last one, credit pays for every item and stays non-negative, a forced emit ships min(credit, cache size) items and an unforced one keeps less than a batch of that back; pending paths do nothing |
| `OutboundPaths.EmitAllShips` | libcaf_core/caf/outbound_path.hpp:56-78 | The batch loop sends consecutively numbered batches, full except for one forced last one, and leaves less than a batch (nothing if forced) |
| `OutboundPaths.EmitAllKeeps` | libcaf_core/caf/outbound_path.hpp:56-78 | The batch loop neither loses, duplicates nor reorders items |
| `Broadcast.ChunkSizeIsLeast` | libcaf_core/caf/broadcast_downstream_manager.hpp:225-240 | The fold over the open paths computes the least remaining credit, and the sentinel exactly if no path is open |
| `BroadcastRuns.OpenPathsGetTheStream` | libcaf_core/caf/broadcast_downstream_manager.hpp:184-288 | Over every run of push, emit, forced emit, flush, close, acknowledgements, insert and remove: while a path stays connected with a fixed filter and no direct push to it, sent ++ cache ++ selected central buffer of an open path grows by exactly the selected part of what is pushed |
| `BroadcastRuns.FreshPathsStartAtTheBuffer` | libcaf_core/caf/broadcast_downstream_manager.hpp:151-288 | For an inserted path that stream is the selected part of the central buffer at insertion followed by all later pushes |
| `BroadcastRuns.ClosingPathsGetDirectPushesOnly` | libcaf_core/caf/broadcast_downstream_manager.hpp:54-64 | Over every run, a path that is closing stays closing, and sent ++ cache grows by exactly the items pushed to its slot directly; pushes to the central buffer, emits and flushes add nothing |
| `Broadcast.AllClosing` | libcaf_core/caf/broadcast_downstream_manager.hpp:241-250 | The early branch for the case that all paths are closing does what the general branch would do |
| `BroadcastRuns.BatchesAreNumbered` | libcaf_core/src/outbound_path.cpp:37-49 | Over every run the batches of a path carry the IDs 1, 2, 3, ... and credit is never negative |
| `BroadcastRuns.EmitNeverBuffersMore` | libcaf_core/caf/broadcast_downstream_manager.hpp:220-288 | Central buffer plus largest cache never grows by an emit, so the assertion at its end holds for all path sets and filters |
| `BroadcastRuns.FlushNeverBuffersMore` | libcaf_core/caf/broadcast_downstream_manager.hpp:184-208 | The same for a flush |
| `BroadcastRuns.ChunkFitsEveryOpenPath` | libcaf_core/caf/broadcast_downstream_manager.hpp:225-251 | A non-empty chunk leaves the central buffer only if it fits the remaining credit of every open path |
| `BroadcastRuns.ForcedEmitDrains` | libcaf_core/caf/broadcast_downstream_manager.hpp:251-280 | A forced emit that moved a chunk empties the cache of every open path that is not pending |
| `BroadcastRuns.ManagerOkNext` | libcaf_core/caf/broadcast_downstream_manager.hpp:151-288 | Every operation keeps slots distinct, batch sizes positive, credit within range and IDs counted |
| `BroadcastLaws.EmitTakesAllThatFits` | libcaf_core/caf/broadcast_downstream_manager.hpp:225-251 | An emit takes items from the front of the central buffer only. It takes none if no path is open, never more than the credit of each open path covers on top of its cache, and stops only at the end of the buffer or where the credit of some open path is used up: so it takes the smaller of the buffer size and the least room |
| `BroadcastLaws.EmitServesEveryPath` | libcaf_core/caf/broadcast_downstream_manager.hpp:241-280 | Every emit serves every path, also when nothing leaves the central buffer: a pending path sends nothing, a closing one and any path in a forced emit all that its credit allows, and any other path all of that but less than a batch |
| `BroadcastLaws.LeavesExactly` | libcaf_core/src/downstream_manager.cpp:124-138 | A path is gone after an operation exactly if the operation removes it, or closes it, or acknowledges a batch while it is closing, the latter two with an empty cache and the last batch acknowledged |
| `BroadcastLaws.ClosingKeepsThePath` | libcaf_core/src/downstream_manager.cpp:136-137 | Closing any other path leaves it in place with all its items and marks it |
| `BroadcastLaws.ArrivesExactly` | libcaf_core/caf/broadcast_downstream_manager.hpp:151-169 | A path appears exactly by an insertion into a free slot: pending, without credit, with the default filter and nothing received, sent or acknowledged |
| `BroadcastLaws.LeavingPathsWereServed` | libcaf_core/src/stream_manager.cpp:84-96 | Over every run: a path that leaves without being removed was sent, in order, all that it had at any earlier step and all that it got since, and its last batch was acknowledged |
| `BroadcastLaws.BooksBalance` | libcaf_core/src/stream_manager.cpp:59-96 | Over every run, between any two steps at which a path is present throughout: credit plus items sent grows by exactly what the sink granted in acknowledgements; sent ++ cache grows by exactly the direct pushes and, while open, the selected part of all that left the central buffer; filter and acknowledged ID are those set last; the path is closing exactly from a close on and pending exactly until its own sink answers |
| `BroadcastLaws.BufferMoves` | libcaf_core/caf/broadcast_downstream_manager.hpp:184-208 | A flush empties the central buffer, a push appends to it, and nothing but a flush or an emit takes from it |
| `StreamManager.OutboundPath.constructor` | libcaf_core/src/outbound_path.cpp:21-31 | A new path is pending, without credit, with batch size 50 and IDs from 1 |
| `StreamManager.OutboundPath.EmitBatch` | libcaf_core/src/outbound_path.cpp:37-49 | Credit drops by the batch size, the ID grows by one, the batch is logged under the old ID |
| `StreamManager.OutboundPath.EmitBatchesImpl` | libcaf_core/caf/outbound_path.hpp:56-78 | The iterator loop equals the specified batching and returns how far it came |
| `StreamManager.OutboundPath.EmitBatches` | libcaf_core/caf/outbound_path.hpp:80-104 | The in-place emit equals the specified emit and returns the remaining cache |
| `StreamManager.OutboundPath.SetDesiredBatchSize` | libcaf_core/src/outbound_path.cpp:80-85 | Negative and oversized batch sizes become the maximum; an unchanged value is kept as it is |
| `StreamManager.BroadcastManager.StaysValid` | libcaf_core/caf/broadcast_downstream_manager.hpp:153-155 | Whenever a method's effect is a specified operation, path list and state list stay aligned and well formed; every public method uses it to promise a valid object |
| `StreamManager.BroadcastManager.Push` | libcaf_core/caf/buffered_downstream_manager.hpp:47-51 | Appends to the central buffer |
| `StreamManager.BroadcastManager.BufferedTotal` | libcaf_core/caf/broadcast_downstream_manager.hpp:66-74 | The loop returns central buffer size plus largest cache |
| `BroadcastRuns.LargestBatchIsLargest` | libcaf_core/caf/buffered_downstream_manager.hpp:83-86 | The fold over the paths computes the largest batch size, and at least 1 |
| `StreamManager.BroadcastManager.LargestDesired` | libcaf_core/caf/buffered_downstream_manager.hpp:83-86 | The loop computes that maximum |
| `StreamManager.BroadcastManager.Capacity` | libcaf_core/caf/buffered_downstream_manager.hpp:80-90 | Room left when aiming at two batches of the largest batch size, zero if none |
| `StreamManager.BroadcastManager.PushTo` | libcaf_core/caf/broadcast_downstream_manager.hpp:54-64 | Appends to one path's cache, or reports an unknown slot and changes nothing |
| `StreamManager.BroadcastManager.SetFilter` | libcaf_core/caf/broadcast_downstream_manager.hpp:83-97 | Replaces one path's filter, or fails for an unknown slot |
| `StreamManager.BroadcastManager.InsertPath` | libcaf_core/caf/broadcast_downstream_manager.hpp:151-169 | Adds path and state for a new slot, or reports a slot in use and changes nothing |
| `StreamManager.BroadcastManager.RemovePath` | libcaf_core/src/downstream_manager_base.cpp:37-47 | Removes path and state together, or reports an unknown slot |
| `StreamManager.BroadcastManager.Close` | libcaf_core/src/downstream_manager.cpp:124-138 | Removes a clean path at once, marks any other path as closing, ignores unknown slots |
| `StreamManager.BroadcastManager.AckOpen` | libcaf_core/src/stream_manager.cpp:59-82 | Opens a pending path with its first credit and batch size and rebinds it if another actor takes over; rejects unknown slots, repeated handshakes and handshakes from others than the sink |
| `StreamManager.BroadcastManager.AckBatch` | libcaf_core/src/stream_manager.cpp:84-96 | Adds credit, sets batch size and acknowledged ID, and removes a closing path that has become clean |
| `StreamManager.BroadcastManager.FanOutFlush` | libcaf_core/caf/broadcast_downstream_manager.hpp:184-208 | Moves the central buffer into the caches of all open paths through their filters |
| `StreamManager.BroadcastManager.GetChunk` | libcaf_core/caf/buffered_downstream_manager.hpp:53-74 | Takes the first n items, or all there are, off the central buffer |
| `StreamManager.BroadcastManager.EmitBatches` | libcaf_core/caf/broadcast_downstream_manager.hpp:220-288 | The in-place emit over all paths, with its three branches, equals the specified emit |
| `Philosophers.StickAccounting` | examples/dynamic_behavior/dining_philosophers.cpp:44-147 | In every reachable state of a ring of any size from 2: a chopstick is taken by p exactly when exactly one of these holds: a positive answer to p is in flight, p counts it as held, p's put is in flight; otherwise none of them does |
| `Philosophers.NeighboursExclude` | examples/dynamic_behavior/dining_philosophers.cpp:118-146 | Neighbours never eat at the same time |
| `Philosophers.PutsAreExpected` | examples/dynamic_behavior/dining_philosophers.cpp:50-62 | Every put in flight finds its chopstick taken by its sender, and the complaint about an unexpected put never runs |
| `Philosophers.EatsExactlyWithBothSticks` | examples/dynamic_behavior/dining_philosophers.cpp:118-146 | In every reachable state a philosopher that awaits no answer eats exactly if both its chopsticks are taken by it and none of its puts is in flight |
| `Philosophers.AtMostHalfEat` | examples/dynamic_behavior/dining_philosophers.cpp:118-146 | At most half of the ring eats at any time |
| `Philosophers.NeverStuck` | examples/dynamic_behavior/dining_philosophers.cpp:105-165 | Each philosopher always has a message of its own that can be delivered now |
| `Philosophers.OneToken` | examples/dynamic_behavior/dining_philosophers.cpp:123-163 | A philosopher has exactly one eat or think token in flight, or none while it awaits answers |
| `Philosophers.AttemptsEnd` | examples/dynamic_behavior/dining_philosophers.cpp:105-138 | Each attempt to eat ends: 2 * pending takes + pending answers starts at no more than 4 and drops by one with every delivery of the philosopher's until it is no longer waiting |
| `Philosophers.RightIsNextSeat` | examples/dynamic_behavior/dining_philosophers.cpp:193-194 | The right chopstick is the next seat's, around the ring |
| `Philosophers.RunInv` | examples/dynamic_behavior/dining_philosophers.cpp:44-165 | The invariant of all reachable states behind these results |
| `PhilosopherMeals.AttemptEndsAsAnswered` | examples/dynamic_behavior/dining_philosophers.cpp:105-138 | In every run, as long as an attempt to eat lasts and when it ends: the answers read so far come from different chopsticks, and the philosopher is hungry after none, granted or denied after one as that one says, and after two eating if both are positive and thinking otherwise |
| `PhilosopherMeals.EverybodyCanEat` | examples/dynamic_behavior/dining_philosophers.cpp:105-163 | Whatever a run has done so far, it can be continued so that any chosen philosopher eats |
| `PhilosopherMeals.SettlesDown` | examples/dynamic_behavior/dining_philosophers.cpp:105-146 | Every run can be continued until nothing but wishes to eat is in flight: as long as anything else is, something else can be delivered, and each such delivery lowers a measure over the whole ring |
| `PhilosopherMail.SeatTurnDelivers` | examples/dynamic_behavior/dining_philosophers.cpp:102-146 | With one mailbox per actor and skipping: a philosopher's turn finds the first message that its behavior accepts, keeps skipped ones in order, and is exactly a delivery of that message in the protocol over the bag of all mailboxes; without such a message nothing changes |
| `PhilosopherMail.StickTurnDelivers` | examples/dynamic_behavior/dining_philosophers.cpp:44-65 | A chopstick's turn is exactly the delivery of the oldest message in its mailbox |
| `PhilosopherMail.TableRunIsRun` | examples/dynamic_behavior/dining_philosophers.cpp:44-165 | Every run of actors taking turns on their mailboxes shows a run of the protocol |
| `PhilosopherMail.TableIsSafe` | examples/dynamic_behavior/dining_philosophers.cpp:44-165 | So at the table with mailboxes neighbours never eat together and no put is ever unexpected |
| `PhilosopherMail.TableEatsExactlyWithBothSticks` | examples/dynamic_behavior/dining_philosophers.cpp:118-146 | At the table with mailboxes, too, a philosopher that awaits no answer eats exactly with both chopsticks and no put under way |
| `PhilosopherMail.TableNeverStuck` | examples/dynamic_behavior/dining_philosophers.cpp:102-165 | Skipping leaves nobody stuck: each philosopher has an acceptable message in its own mailbox, or its take waits in the mailbox of one of its two chopsticks |
| `PhilosopherTable.Table.constructor` | examples/dynamic_behavior/dining_philosophers.cpp:180-195 | Chopstick and philosopher objects, wired around the ring, show the initial table |
| `PhilosopherTable.Philosopher.FirstAccepted` | examples/dynamic_behavior/dining_philosophers.cpp:102-103 | The scan over the mailbox returns the first message that is not skipped |
| `PhilosopherTable.Table.SeatTurn` | examples/dynamic_behavior/dining_philosophers.cpp:105-163 | The turn of a philosopher object, which sends to the chopsticks it refers to, equals the specified turn and keeps every message in its receiver's mailbox |
| `PhilosopherTable.Table.StickTurn` | examples/dynamic_behavior/dining_philosophers.cpp:44-65 | The same for the turn of a chopstick object |
| `CowValues.RunSound` | libcaf_core/caf/intrusive_ptr.hpp:59-126 | Over every run of pointer operations, including self-assignment, move by swap, detach and adoption without a new reference: each live object's count is the number of its handles and detached owners and positive, every object is live or was deleted exactly once, nothing refers to a deleted object |
| `CowValues.DeletedExactlyWhenUnowned` | libcaf_core/caf/ref_counted.hpp:31-33 | Over every run an object has been deleted exactly once if nothing owns it any more, and not at all otherwise |
| `CowValues.HandlesArePlainValues` | libcaf_core/caf/intrusive_cow_ptr.hpp:17-24 | Copy-on-write handles refine plain values: the values read through all handles and detached references form, step by step, a run of a machine in which each handle stores a value of its own |
| `CowValues.PermittedIffSensible` | libcaf_core/caf/intrusive_ptr.hpp:59-126 | The machine without sharing permits exactly the operations that the handles permit, where detaching must in addition name the object that the handle points to |
| `CowValues.WritesArePrivate` | libcaf_core/caf/intrusive_cow_ptr.hpp:142-150 | A write through one handle is seen through no other handle and by no detached owner |
| `CountedMemory.ReleaseSound` | libcaf_core/src/ref_counted.cpp:26-29 | Releasing keeps all counts exact and deletes the object exactly when the released reference was its last owner |
| `CowHandles.ResetSound` | libcaf_core/caf/intrusive_ptr.hpp:101-106 | Reset keeps all counts exact, also when a handle is reset to its own object |
| `CowHandles.SwapSound` | libcaf_core/caf/intrusive_ptr.hpp:82-84 | Swap keeps all counts exact, also with itself |
| `CowHandles.UnshareSound` | libcaf_core/caf/intrusive_cow_ptr.hpp:17-24 | Unsharing keeps all counts exact |
| `ManagedPointers.Heap.New` | libcaf_core/src/ref_counted.cpp:13-15 | A new object has count 1 |
| `ManagedPointers.Heap.Ref` | libcaf_core/caf/ref_counted.hpp:26-29 | Adds one reference |
| `ManagedPointers.Heap.Deref` | libcaf_core/src/ref_counted.cpp:26-29 | Deletes an object with count 1, decrements any other |
| `ManagedPointers.Heap.SetPtr` | libcaf_core/caf/intrusive_ptr.hpp:171-175 | Overwrites the pointer and then adds a reference if asked to |
| `ManagedPointers.Heap.ResetTo` | libcaf_core/caf/intrusive_ptr.hpp:101-106 | Sets the new pointer before the old object is released; equals the specified reset |
| `ManagedPointers.Heap.Detached` | libcaf_core/caf/intrusive_ptr.hpp:86-93 | Returns the pointer and empties the handle without touching the count |
| `ManagedPointers.Heap.SwapPtrs` | libcaf_core/caf/intrusive_ptr.hpp:82-84 | Exchanges two pointers |
| `ManagedPointers.Heap.EmplaceIn` | libcaf_core/caf/intrusive_ptr.hpp:108-111 | Lets the handle adopt a new object without a further reference |
| `ManagedPointers.Heap.CopyAssign` | libcaf_core/caf/intrusive_ptr.hpp:123-126 | Copy assignment is a reset to the other handle's object with a new reference, also for self-assignment |
| `ManagedPointers.Heap.MoveAssign` | libcaf_core/caf/intrusive_ptr.hpp:118-121 | Move assignment is a swap |
| `ManagedPointers.Heap.MoveConstruct` | libcaf_core/caf/intrusive_ptr.hpp:63-65 | Move construction steals the pointer |
| `ManagedPointers.Heap.Destruct` | libcaf_core/caf/intrusive_ptr.hpp:77-80 | Destruction gives up the reference, if any |
| `ManagedPointers.Heap.UnsharedPtr` | libcaf_core/caf/intrusive_cow_ptr.hpp:17-24 | Copies the object and releases the shared one unless the count is 1; the result is the handle's pointer |
| `ManagedPointers.Heap.Unshared` | libcaf_core/caf/intrusive_cow_ptr.hpp:135-140 | Does nothing for an empty handle |
| `ManagedPointers.Heap.Assign` | libcaf_core/caf/intrusive_cow_ptr.hpp:142-150 | Writing through the mutable reference equals the specified write |
| `SharedRelease.DeletedOnceWithLastReference` | libcaf_core/src/ref_counted.cpp:26-29 | However threads interleave the load, the decrement and their other steps, the object has been deleted once if no thread holds a reference, and not at all otherwise |
| `SharedRelease.NoUseAfterDelete` | libcaf_core/src/ref_counted.cpp:26-29 | No thread touches the count or the object after the deletion |
| `SharedRelease.WriterIsAlone` | libcaf_core/caf/intrusive_cow_ptr.hpp:17-24 | A thread that found the count to be 1 and writes in place holds the only reference for as long as it writes |
| `InterfaceMatch.AcceptsPermutations` | libcaf_core/caf/interface_mismatch.hpp:14-87 | For handler lists of any lengths, with at most one timeout at the end of Found: the result is the length of Found exactly when the handlers are permutations of each other |
| `InterfaceMatch.ReportsFirstMismatch` | libcaf_core/caf/interface_mismatch.hpp:14-87 | For lists of equal length that are no permutations, the result is the first index whose prefix is not contained, as a multiset, in Expected |
| `InterfaceMatch.StopsAtFirstExcess` | libcaf_core/caf/interface_mismatch.hpp:49-87 | For lists of any lengths, a handler without partner stops the matcher at its index, except that -2 is reported if Expected is used up and the handler takes one input |
| `InterfaceMatch.EndsAfterLastClause` | libcaf_core/caf/interface_mismatch.hpp:25-64 | When every handler of Found has a partner, what is left of both lists decides between success, -1, -2 and no matching specialization |
| `InterfaceMatch.ScanHit` | libcaf_core/caf/interface_mismatch.hpp:66-79 | The inner recursion removes the first equal clause of Expected and keeps the order of the others |
| `ActorComposition.ComposesFirstTakers` | libcaf_core/caf/composed_type.hpp:30-68 | The nested loops keep, in g's order, exactly the first clause of f that takes the output of each clause of g |
| `ActorComposition.ComposesChains` | libcaf_core/caf/composed_type.hpp:44-60 | A clause is in the composition exactly if it takes the inputs of some clause of g and returns the output of the first clause of f that takes what that clause returns |
| `ActorComposition.AgreesWithDocumentation` | libcaf_core/caf/composed_type.hpp:13-26 | They compute the documented list comprehension, with equality of types read as the code reads it, exactly when no clause of g is taken by two clauses of f |
| `ActorComposition.DistinctInputsSuffice` | libcaf_core/caf/composed_type.hpp:13-26 | Pairwise distinct inputs of f suffice if f takes no whole `result` as its only input; both readings of a `result` in the documentation then agree |
| `ActorComposition.DistinctInputsAreNotEnough` | libcaf_core/caf/composed_type.hpp:44-60 | Otherwise they do not: one output matches both rules, and the code agrees with neither reading |
| `InspectionSafety.RoundTripIffValid` | libcaf_core/caf/inspector_access.hpp:409-439 | For every supported type and every value of it: loading what was saved returns the value and leaves exactly the rest of the stream if and only if the value is valid: every field at any depth either equals its fallback, which is neither saved nor checked, or satisfies its invariant and is valid itself |
| `InspectionRoundTrip.RoundValue` | libcaf_core/caf/inspector_access.hpp:284-287 | The round trip by induction over builtins, tuples, lists, maps, optionals, variants and objects |
| `InspectionRoundTrip.RoundField` | libcaf_core/caf/inspector_access_base.hpp:16-35 | The round trip of a mandatory field, with the optional and the variant forms |
| `InspectionRoundTrip.RoundOptionalField` | libcaf_core/caf/inspector_access_base.hpp:37-85 | The round trip of a field that may be absent |
| `InspectionRoundTrip.RoundMember` | libcaf_core/caf/save_inspector.hpp:58-75 | The round trip of an object field: a value equal to its fallback is saved as absent and loaded as the fallback |
| `InspectionRoundTrip.RoundAlternative` | libcaf_core/caf/inspector_access.hpp:594-608 | A variant comes back with the same alternative, found by its type ID |
| `InspectionRoundTrip.RoundEntries` | libcaf_core/caf/load_inspector_base.hpp:51-75 | Maps come back entry by entry, and distinct keys never trigger the duplicate-key error |
| `InspectionRoundTrip.SavedFormsAreUnambiguous` | libcaf_core/caf/save_inspector_base.hpp:31-50 | No two values of a type share a token stream, and no saved value is the beginning of another |
| `InspectionSafety.LoadedValue` | libcaf_core/caf/inspector_access.hpp:183-205 | Whatever the tokens, a successful load yields a value of the right type that is valid in the same sense: fields equal their fallback or satisfy their invariant |
| `InspectionSafety.LoadedEntries` | libcaf_core/caf/load_inspector_base.hpp:51-75 | A loaded map has distinct keys |
| `InspectionSafety.LoadedAlternative` | libcaf_core/caf/inspector_access.hpp:610-623 | A loaded variant holds a value of the alternative it names |
| `InspectionReading.LoadsExactlyWrittenForms` | libcaf_core/caf/inspector_access.hpp:284-439 | For every supported type and all tokens: they load as a value with some rest left over exactly if they are a written form of that value followed by that rest. Written forms are defined without the loader: the saved form, except that a field may be written although it equals its fallback and the type index of an absent variant is free |
| `InspectionReading.SavedFormIsWritten` | libcaf_core/caf/save_inspector_base.hpp:31-50 | Saving a valid value yields one of its written forms |
| `InspectionReading.WrittenFormsAreUnambiguous` | libcaf_core/caf/load_inspector_base.hpp:31-75 | A written form stands for one value only, and none is the beginning of another |
| `InspectionForms.LoadedWasWritten` | libcaf_core/caf/inspector_access.hpp:284-439 | Whatever is loaded successfully was a written form of the value, by induction over all types |
| `InspectionReading.WrittenLoads` | libcaf_core/caf/inspector_access.hpp:284-439 | Every written form loads as its value, whatever follows |
| `InspectionReading.WrittenEntriesLoad` | libcaf_core/caf/load_inspector_base.hpp:51-75 | Written entries, with any keys, are loaded in order if all keys differ and refused as multiple key definitions otherwise |
| `InspectionReading.RepeatedKeysAreRefused` | libcaf_core/caf/load_inspector_base.hpp:66-71 | A map in which a key is repeated is refused as multiple key definitions, whatever size it announces and whatever follows |
| `InspectionReading.FailedInvariantsAreRefused` | libcaf_core/caf/inspector_access_base.hpp:16-58 | A present field whose value fails its invariant is refused with the name of the field, before anything that follows is read |
| `InspectionReading.FailedVariantsAreRefused` | libcaf_core/caf/inspector_access.hpp:610-660 | The same for a field that holds a variant |
| `InspectionReading.UnknownTypesAreRefused` | libcaf_core/caf/inspector_access.hpp:610-650 | A type index that no alternative of a variant has is refused with the name of the field |
| `InspectionReading.RefusedFieldsRefuseTheObject` | libcaf_core/caf/load_inspector.hpp:303-309 | An object is refused for the reason of its first refused field |
| `InspectionCalls.SavingEndsIffCalm` | libcaf_core/caf/inspector_access.hpp:409-421 | The calls that saving a value makes can go on forever exactly if the type holds, at some depth, an optional directly inside an optional or an optional field with a fallback |
| `InspectionCalls.FindLoop` | libcaf_core/caf/inspector_access.hpp:417-421 | For such a type the calls lead to a `save_field` that calls itself |
| `InspectionCalls.SupportedIsCalm` | libcaf_core/caf/inspector_access.hpp:409-421 | Every type of the round trip is free of such calls |
| `Inspectors.SaveInspector.Save` | libcaf_core/caf/inspector_access.hpp:284-287 | The dispatch appends exactly the specified tokens |
| `Inspectors.SaveInspector.SaveList` | libcaf_core/caf/save_inspector_base.hpp:31-50 | The loop appends size, elements in order and end |
| `Inspectors.SaveInspector.SaveMap` | libcaf_core/caf/save_inspector_base.hpp:52-64 | The loop appends size, key-value pairs in order and end |
| `Inspectors.SaveInspector.SaveTuple` | libcaf_core/caf/save_inspector_base.hpp:66-86 | Appends the parts in order between begin and end |
| `Inspectors.SaveInspector.SaveObject` | libcaf_core/caf/save_inspector.hpp:200-205 | Appends the fields in order between begin and end |
| `Inspectors.SaveInspector.SaveMemberField` | libcaf_core/caf/save_inspector.hpp:58-96 | A field with a fallback is present exactly if its value differs from the fallback; invariants are ignored |
| `Inspectors.SaveInspector.SaveOneField` | libcaf_core/caf/inspector_access.hpp:409-415 | Mandatory, optional and variant form of a field |
| `Inspectors.SaveInspector.SaveMaybe` | libcaf_core/caf/inspector_access_base.hpp:74-85 | A field that may be absent, with the variant form |
| `Inspectors.LoadInspector.Load` | libcaf_core/caf/inspector_access.hpp:183-186 | The dispatch returns the specified value and rest, or nothing and the specified error |
| `Inspectors.LoadInspector.LoadList` | libcaf_core/caf/load_inspector_base.hpp:36-49 | The loop loads the announced number of elements into a cleared container |
| `Inspectors.LoadInspector.LoadMap` | libcaf_core/caf/load_inspector_base.hpp:51-75 | The loop stops with an error at the first repeated key |
| `Inspectors.LoadInspector.LoadTuple` | libcaf_core/caf/load_inspector_base.hpp:77-97 | Loads the parts in order; a different size is an error |
| `Inspectors.LoadInspector.LoadObject` | libcaf_core/caf/load_inspector.hpp:304-309 | Loads the fields in order between begin and end |
| `Inspectors.LoadInspector.LoadMemberField` | libcaf_core/caf/load_inspector.hpp:58-129 | An absent field with a fallback takes the fallback, without invariant check |
| `Inspectors.LoadInspector.FinishField` | libcaf_core/caf/inspector_access_base.hpp:20-32 | The invariant is checked before the field ends |
| `Inspectors.LoadInspector.LoadOneField` | libcaf_core/caf/inspector_access.hpp:423-430 | Mandatory, optional and variant form; the invariant of an optional field is about the value inside |
| `Inspectors.LoadInspector.LoadMaybe` | libcaf_core/caf/inspector_access_base.hpp:37-64 | A field that may be absent, with the variant form |
| `Inspectors.LoadInspector.LoadIndexed` | libcaf_core/caf/inspector_access.hpp:610-623 | An index outside the list of alternatives is an invalid-type error |
| `Inspectors.LoadInspector.LoadTyped` | libcaf_core/caf/inspector_access.hpp:594-608 | Loads the first alternative with the type ID, or reports an invalid type |
| `CurlPool.WorkersArePartitioned` | examples/curl/curl_fuse.cpp:293-332 | In every run each worker is in exactly one of the idle and busy lists, once |
| `CurlPool.OneErrandEach` | examples/curl/curl_fuse.cpp:233-282 | A busy worker has exactly one job or one finished message under way, an idle one neither |
| `CurlPool.WaitsExactlyWhenNoneIdle` | examples/curl/curl_fuse.cpp:313-331 | The waiting behavior is on top exactly while no worker is idle, and no read takes from an empty idle list |
| `CurlPool.ReadsStartJobsUnlessNoneIdle` | examples/curl/curl_fuse.cpp:313-329 | In every run a read adds exactly one job and makes exactly one idle worker busy with it, unless no worker is idle; then it is dropped and changes nothing else |
| `CurlPool.OnlyReadsStartJobs` | examples/curl/curl_fuse.cpp:330-331 | No other event adds a job or drops a read |
| `CurlPool.RequestsAddUp` | examples/curl/curl_fuse.cpp:293-332 | In every run all reads so far are dropped, under way or served, and all served ones are reported or about to be |
| `CurlPool.Master.ReceiveRead` | examples/curl/curl_fuse.cpp:313-329 | Forwards the job to the last idle worker, which the invariant shows to exist, and waits if it was the only one; drops reads while waiting; keeps the invariant |
| `CurlPool.Master.MoveToIdle` | examples/curl/curl_fuse.cpp:300-309 | The search loop moves the sender from busy to idle, or does nothing for a stranger |
| `CurlPool.Master.ReceiveFinished` | examples/curl/curl_fuse.cpp:322-330 | Moves the worker, stops waiting and keeps the invariant |
| `ByteAddress.KeepsLeadingBits` | libcaf_core/caf/byte_address.hpp:39-54 | For addresses of any length, masking keeps exactly the first p bits; over-long prefixes keep all |
| `ByteAddress.SameNetworkIffSamePrefix` | libcaf_core/caf/byte_address.hpp:39-54 | Two addresses have equal network addresses exactly when they agree on the first p bits |
| `ByteAddress.MaskingComposes` | libcaf_core/caf/byte_address.hpp:39-64 | Masking by p and then q is masking by the smaller of both |
| `ByteAddress.AndAssign` | libcaf_core/caf/byte_address.hpp:58-64 | The in-place loop is the byte-wise and, also of an address with itself |
| `ByteAddress.NetworkAddress` | libcaf_core/caf/byte_address.hpp:39-54 | Mask building and masking yield the specified network address in a fresh object |
| `Dictionary.EmplaceMeaning` | libcaf_core/caf/dictionary.hpp:176-186 | Emplacing keeps keys sorted and unique, adds the key to the abstract map unless present, and points at its entry |
| `Dictionary.InsertOrAssignMeaning` | libcaf_core/caf/dictionary.hpp:221-231 | Inserting or assigning keeps keys sorted and unique, sets the key in the abstract map, and points at its entry |
| `Dictionary.InsertionsKeepSorted` | libcaf_core/caf/dictionary.hpp:176-243 | All insertions keep the keys sorted and unique |
| `Dictionary.EmplaceIgnoresHint` | libcaf_core/caf/dictionary.hpp:201-210 | For every hint the dictionary and the entry are those without a hint |
| `Dictionary.InsertOrAssignIgnoresHint` | libcaf_core/caf/dictionary.hpp:233-243 | For every hint the dictionary and the entry are those without a hint |
| `Dictionary.FindsKeys` | libcaf_core/caf/dictionary.hpp:256-264 | A lookup finds the entry exactly when the abstract map has the key |
| `Dictionary.SortedDictionary.LowerBoundFrom` | libcaf_core/caf/dictionary.hpp:290-299 | Binary search finds the first position whose key is not less |
| `Dictionary.SortedDictionary.FindKey` | libcaf_core/caf/dictionary.hpp:256-264 | Returns the position of the key or the end |
| `Dictionary.SortedDictionary.EmplaceKey` | libcaf_core/caf/dictionary.hpp:176-186 | The in-place emplace equals the specified one |
| `Dictionary.SortedDictionary.EmplaceHinted` | libcaf_core/caf/dictionary.hpp:201-210 | The in-place hinted emplace equals the unhinted one |
| `Dictionary.SortedDictionary.InsertOrAssignKey` | libcaf_core/caf/dictionary.hpp:221-231 | The in-place insert-or-assign equals the specified one |
| `Dictionary.SortedDictionary.InsertOrAssignHinted` | libcaf_core/caf/dictionary.hpp:233-243 | The in-place hinted insert-or-assign equals the unhinted one |

## Left out

- Log text parsing, file streams, JSON output and the first pass of `caf-vec`: events are typed when they enter the model, and entities are named by their vector index instead of by actor and thread ID.
- The group that carries broadcasts between nodes: any earlier send may reach any node, in any order and more than once.
- Overflow of clock components and of batch IDs: they are unbounded here.
- Metric gauges, `last_send_`, ticks and `abort`.
- Overflow of `open_credit`: acknowledgements that would leave the 32-bit range, or credit negative, are excluded as the assertions in the code do.
- Caches of more than 2147483647 items: the code asserts that there are none and casts their size to 32 bits; here sizes are unbounded.
- Real time and delays: delayed messages are ordinary messages in flight.
- Liveness of the philosophers under fairness: the protocol can livelock; what is shown is that single attempts end and that everybody can still get to eat.
- Pointer conversions between types, comparison of pointers by address, and weak or strong control blocks of actors.
- Weak memory: the accesses of `SharedRelease` interleave one at a time.
- Virtual fields with getters and setters, load and save callbacks, type IDs of objects, and the deprecated inspector API.
- Concrete serializers and readers: the inspectors here record and replay calls; the order in which a container keeps its entries is its own.
- Saving and loading optionals that directly hold optionals, or optional fields with a fallback: saving them does not end, as `InspectionCalls.SavingEndsIffCalm` shows.
- The transfers of the curl workers, including the endless retry after a failed one: a job ends with one finished message or stays under way.
- The default handler of actors: a read that reaches the curl master while it waits counts as dropped.
- `message_id`, `optional`, `expected`, `fixed_stack`, `cell` and similar utilities: they would add easy members only.
- Scheduler, mailboxes, logger, groups, brokers and middleman: input, output or code outside the modelled parts.
