# Soul engine core: a verified model

A Dafny model of seven components of the Soul engine, with proofs about them. `dafny verify dfyconfig.toml`
checks everything.

| files | component |
|---|---|
| `Serial`, `ReceiveWindow`, `ReliableChannel`, `ReliableEndpoint`, `SenderBooks`, `SenderDrain`, `ReliableSystem`, `Expiry`, `Silence`, `SequenceWrap`, `WireHeaders`, `NetworkManager`, `TwoManagers` | reliable UDP in the network manager |
| `TaskGraph`, `GraphBooks`, `TaskOrder`, `TaskStarts`, `TaskRuns`, `TaskDrain`, `TaskQueue`, `TaskNecessity`, `TaskRace`, `TaskScheduler`, `FrameScheduler`, `Continuations` | the task dependency graph |
| `MemoryManager`, `VectorGrowth`, `SoulVector`, `VectorAccounts`, `VectorWorld` | the vector with inline storage and its tagged memory accounting |
| `PoolAllocator` | the block pool with an intrusive free list |
| `Bits`, `ArenaAllocator` | the arena with its alignment mask |
| `SoulFlatMap` | the sorted-vector map |
| `XorCipher` | the encryption strategy |
| `Options` | the one option type |

## How it is modelled

**Reliable UDP.** Sequence numbers, acknowledgements and masks are 32-bit words with wrap-around and C bit
operators. One side of a channel is a state machine whose events are the lock-protected sections of the
manager plus the hand-over of a packet to the transport and the firing of a timer, so sends, timers and
several receives interleave freely. Two sides are joined by the set of all packets ever put on the wire:
anything in it may arrive at any time, any number of times, or never. The class `Manager` is the imperative
form: its methods make the same changes to the tables, branch by branch, and isolate one peer and channel
from every other; `TwoManagers` sets two of them face to face. The fields after `limit` in `Endpoint` record the history of a run and influence nothing.

**Task graph.** A step is one locked section or one atomic operation: `schedule` registers with one
dependency and raises the counter in a later step, and a finished task sets its flag, lowers one counter at a
time, clears its list and enqueues what became ready. All steps of all tasks interleave freely, so a task may
be released while its own call of `schedule` is still going on; a run in which that never happens is *calm*.
Counters are unsigned words and wrap. A job resumes any coroutine that is not done; a second job of a running
task is logged as a second resumption, and what the program does after that is undefined. The classes
`Scheduler`, `Frame` and `TaskState` are the undisturbed forms of the operations and say what a whole
operation amounts to; `RunWorker` is the loop of a worker that is on its own, and `RunWorkers` that of several
at once, in any order.

**Vector.** Each slot of a block is raw, live or moved-from, and constructing, moving and destroying have
preconditions, so a method verifies only if it constructs nothing twice, destroys nothing raw and gives back
only empty blocks to a manager that has them registered. Contents are stated as plain sequences, and the
effect on a manager's table as the exchange of one claim for another. `VectorAccounts` is the accounting of
any number of vectors and managers as values; `VectorWorld` abstracts a set of vector objects and a set of
manager objects to such a value and proves each method, by its contract alone, to be one step of it.

**Pool.** Memory is a map from addresses to words; clients overwrite the words of blocks they hold as they
please, the link word included.

**Flat map.** The order is any strict weak order, passed as a function. The reference is the history of
operations itself.

## What the proofs found

- *At-most-once delivery does not hold.* When a newer packet arrives, the mask is shifted but the old head is
  not entered into it (src/Networking/NetworkManager.cpp:158-168), so arrivals 1, 2, 1 deliver packet 1 twice.
  `DeliveredTwiceIff` gives the exact condition in terms of the arrivals; nothing is ever delivered three times.
- *A duplicate is not acknowledged again* (src/Networking/NetworkManager.cpp:172-179): a lost acknowledgement
  is repeated only by later traffic: a side that accepts nothing new and sends nothing puts no header on the wire
  (`SilenceSaysNothing`), so a delivered packet can expire at the sender (`ExpiredMayBeDelivered`,
  `LostAckIsNotRepeated`).
  `ExpiredIff` and `FiringDecides` say when: a packet expires if and only if its timer fires after the last
  permitted transmission before any header that acknowledges it has been heard. Delivery plays no part.
- *A side that has heard nothing acknowledges word 0.* This is why acknowledgement soundness needs fewer than
  2^32 sends per channel; with 2^32 sends there is a run in which a packet the peer never received is struck
  off (`UndeliveredIsStruckOff`).
- *`schedule` has a window* between registering and counting (include/Async/Task.h:543-553). A release that
  falls into it finds the counter one too low, with three consequences, each with its run and its exact guard.
  A body can start before a listed dependency has completed (`RaceStartsEarly`), after exactly those releases
  that find counter 1 while the call still has an open token to register, or a registration is uncounted and an
  open task holds one (`PrematureGuard`, `PrematureIff`). A body can get a second start job and be resumed while it runs
  (`RaceStartsTwice`); it starts early or twice after exactly those releases that find counter 1 while the call
  has an open token to register or any uncounted registration (`HarmfulIff`). And a start can be lost: the
  counter goes 0, 2^32 - 1, 0, nobody finds it at 1, the call counted a registration and so does not enqueue
  either, and `wait_for_all` hangs (`RaceLosesStart`). A start is lost exactly when a call ends with a
  non-zero count, nothing owed to the task and no start job (`LostStep`), it is lost for good
  (`LostForGood`), and a quiet scheduler has completed everything exactly when no call of the run ended so
  (`StrandedIff`). Calm runs meet all guards (`CalmRunsAreSound`).
- *The arena's bounds check wraps around* (include/Memory/Core/ArenaAllocator.h:44) and its mask is no
  rounding for alignments that are not powers of two; `PlacedSoundIff`, `AlignRoundsUpIff` and
  `OnlyPowersOfTwoAlign` say exactly when it is right.
- *The arena aligns offsets, not addresses* (include/Memory/Core/ArenaAllocator.h:47, 65, 72): the buffer is
  aligned to `alignof(std::max_align_t)`, and an address is aligned wherever the buffer lies if and only if no
  more than that was asked for (`AddressAlignedIff`).
- *The strategy named AES is a key stream* of rotated key bytes (src/FileSystem/Encryption/AesEncryption.cpp:23-25).

## Model

| member | source | states |
|---|---|---|
| `Serial.SerialOrderIff` | src/Networking/NetworkManager.cpp:12-14 | the signed-difference test orders two true sequence numbers correctly if and only if their difference lies in [-2^31, 2^31) |
| `Serial.SequenceOrderTotal` | src/Networking/NetworkManager.cpp:12-18 | the two comparisons are complementary; no pair is greater both ways, and two distinct words are incomparable only at distance 2^31 |
| `ReceiveWindow.AckedIff` | src/Networking/NetworkManager.cpp:289-307 | the sender reads a sequence as acknowledged exactly when it is the ack itself or lies 1 to 32 behind it with its mask digit set |
| `ReceiveWindow.LateIff` | src/Networking/NetworkManager.cpp:170-182 | the receiver accepts late exactly at distances 1 to 32 with the digit clear: the two windows have the same edges |
| `ReceiveWindow.MaskAfterNewest` | src/Networking/NetworkManager.cpp:158-168 | digit by digit, a newer head moves the mask up by the distance and enters nothing at the place of the old head |
| `ReceiveWindow.MaskAfterLate` | src/Networking/NetworkManager.cpp:176-182 | a late arrival sets its own digit and no other |
| `ReceiveWindow.CoverageAfterNewest` | src/Networking/NetworkManager.cpp:158-168 | what a window acknowledges after a newer head: that head, and everything it acknowledged before that is in reach, except the old head |
| `ReceiveWindow.CoverageAfterLate` | src/Networking/NetworkManager.cpp:170-184 | after a late arrival: that arrival and everything acknowledged before |
| `ReceiveWindow.CoverageGrowsByArrival` | src/Networking/NetworkManager.cpp:145-186 | no arrival makes the window acknowledge anything but itself and what was acknowledged before |
| `ReceiveWindow.AcceptIsAcknowledged` | src/Networking/NetworkManager.cpp:145-219 | every accepted sequence is covered by the acknowledgement built from the window right after it |
| `ReceiveWindow.ArrivalRefines` | src/Networking/NetworkManager.cpp:145-186 | within half the word range the 32-bit window gives the verdict of, and keeps representing, a receiver on unbounded numbers that remembers every late arrival |
| `ReceiveWindow.AckRefines` | src/Networking/NetworkManager.cpp:289-307 | the 32-bit acknowledgement test decides like the unbounded one |
| `ReceiveWindow.WrapAroundRefinement` | src/Networking/NetworkManager.cpp:12-18 | over runs of any length every verdict of the 32-bit code is that of unbounded sequence numbers, as long as each arrival is within half the range of the head it meets |
| `ReceiveWindow.LateSetExact` | src/Networking/NetworkManager.cpp:170-184 | the reference receiver remembers exactly the numbers that were accepted late |
| `ReceiveWindow.MaskExact` | src/Networking/NetworkManager.cpp:158-184 | over any run, mask digit i is set if and only if the number i + 1 behind the head was accepted late |
| `ReceiveWindow.AcceptedTwiceShape` | src/Networking/NetworkManager.cpp:145-186 | a number accepted at two arrivals was newest at the first and late at the second |
| `ReceiveWindow.NeverAcceptedThrice` | src/Networking/NetworkManager.cpp:145-186 | no number is accepted at three arrivals |
| `ReceiveWindow.OneTwoOneDeliversTwice` | src/Networking/NetworkManager.cpp:158-184 | arrivals 1, 2, 1: the first packet is accepted twice |
| `ReceiveWindow.DeliveredTwiceIff` | src/Networking/NetworkManager.cpp:145-186 | a run accepts something twice if and only if a packet that was the newest so far is replayed while 1 to 32 behind the then newest |
| `ReceiveWindow.DroppedUnheardIff` | src/Networking/NetworkManager.cpp:170-174 | a packet never accepted before is dropped if and only if it is more than 32 behind the newest number so far |
| `ReliableChannel.DeliveryIsAnswered` | src/Networking/NetworkManager.cpp:51-63 | one undisturbed `receive` answers every delivery with an ack-only packet that covers it, and answers nothing else unless an acknowledgement was already due |
| `ReliableChannel.ReplyClearsPending` | src/Networking/NetworkManager.cpp:51-143 | receiving that answer removes the answered packet from the sender's pending table |
| `ReliableChannel.HeadersSpeakForTheWindow` | src/Networking/NetworkManager.cpp:102-110 | every header made by a send, a retry or an acknowledgement acknowledges exactly what the window covers, and nothing else of the packet changes |
| `ReliableChannel.SpokenIsStruckOff` | src/Networking/NetworkManager.cpp:121-143 | hearing such a header removes exactly the pending packets that window covers |
| `ReliableChannel.DataClearsPending` | src/Networking/NetworkManager.cpp:96-143 | the next data packet sent or sent again after a delivery also removes the delivered packet from the sender's pending table |
| `ReliableChannel.WithheldIff` | src/Networking/NetworkManager.cpp:51-68 | only an empty packet with the Ack flag is withheld from the caller as such; any other reaches it exactly when it is new |
| `ReliableChannel.DuplicateIsSilent` | src/Networking/NetworkManager.cpp:172-179 | a duplicate changes nothing but what its own acknowledgement strikes off, and is not answered |
| `ReliableEndpoint.InitialSender` | include/Networking/NetworkManager.h:65-79 | a channel nothing was sent on satisfies the sender's invariant |
| `SenderBooks.EventKeepsBooks` | src/Networking/NetworkManager.cpp:96-143 | every event keeps: each number handed out is in exactly one of pending, acknowledged and expired, has one coroutine while pending, and attempts count its transmissions |
| `SenderBooks.RunKeepsBooks` | src/Networking/NetworkManager.cpp:96-287 | the same over every run |
| `SenderBooks.Conservation` | src/Networking/NetworkManager.cpp:96-143 | after any run the numbers 1 to the counter, and no others, are partitioned into pending, acknowledged and expired |
| `SenderBooks.OneActivityPerPending` | src/Networking/NetworkManager.cpp:227-287 | each pending packet has exactly one send or timer under way |
| `SenderBooks.TransmissionBudget` | include/Networking/NetworkManager.h:57-62 | with limits of at most M in force, no packet is transmitted more than M times, the first time included |
| `SenderBooks.ConfigureReachesLaterTimers` | src/Networking/NetworkManager.cpp:78-82 | a new limit, with 0 read as 1, holds for the timers started afterwards; timers under way keep theirs and nothing else changes |
| `SenderDrain.EventMeasure` | src/Networking/NetworkManager.cpp:96-287 | with limits of at most M in force, a step of the send path lowers what is left by at least one, a submission raises it by three for each of M transmissions, and nothing else raises it; under one limit and without a strike-off these are the exact amounts |
| `SenderDrain.WorkIsBounded` | src/Networking/NetworkManager.cpp:234-287 | over any run the steps of the send path plus what is left at the end are at most what was left at the start plus what submissions grant, and equal to it under one limit when nothing is struck off |
| `SenderDrain.ThreeStepsATransmission` | include/Networking/NetworkManager.h:57-62 | a channel that has sent n packets under limits of at most M has taken at most 3 M n steps of its send path |
| `SenderDrain.PendingIsNeverStuck` | src/Networking/NetworkManager.cpp:234-287 | while a packet is pending the oldest send or timer can take its next step |
| `SenderDrain.StoppedIffDrained` | src/Networking/NetworkManager.cpp:234-287 | no step of the send path is possible if and only if no packet is pending and no send or timer is under way |
| `SenderDrain.PendingDrains` | src/Networking/NetworkManager.cpp:234-287 | without new sends, whatever is lost, acknowledged or reconfigured, the send path takes at most the steps left; when it has stopped, and only then, no packet is pending and no timer is left; and every run can be continued until it stops |
| `SenderDrain.UnheardTakesAll` | src/Networking/NetworkManager.cpp:258-287 | under one limit, with nothing struck off, a run has drained if and only if it has taken exactly the steps it was granted, and then everything not acknowledged before has expired |
| `SenderDrain.BoundIsAttained` | src/Networking/NetworkManager.cpp:258-287 | from every state under one limit some run takes exactly the steps left and ends with everything that was pending expired |
| `ReliableSystem.StepKeepsInv` | src/Networking/NetworkManager.cpp:96-287 | every step at either side keeps: all headers on the wire or about to be sent acknowledge only what their side accepted, data on the wire is what was submitted, and acknowledged is a subset of accepted at the peer |
| `ReliableSystem.RunKeepsInv` | src/Networking/NetworkManager.cpp:96-287 | the same over every run with fewer than 2^32 sends a side |
| `ReliableSystem.AcknowledgedWasDelivered` | src/Networking/NetworkManager.cpp:121-143 | in every run over a network that loses, copies and reorders, what a sender struck off as acknowledged was delivered to the application at the peer |
| `ReliableSystem.StruckOffWasDelivered` | src/Networking/NetworkManager.cpp:121-143 | the same for each single `record_ack`, stale headers included: what it removes was delivered before |
| `ReliableSystem.ArrivalsAreGenuine` | src/Networking/NetworkManager.cpp:96-119 | every arrival carries a number the peer handed out and the payload, flags, guarantee and channel submitted under it |
| `ReliableSystem.DeliveredAtMostTwice` | src/Networking/NetworkManager.cpp:145-186 | end to end, with fewer than 2^31 sends by the sender, two deliveries of one packet are first as newest and then as late, and there is no third |
| `ReliableSystem.ExpiredMayBeDelivered` | src/Networking/NetworkManager.cpp:269-272 | an example of what the next rows decide in general: a run in which a packet is delivered and nevertheless expires at the sender |
| `Expiry.ExpiredIff` | src/Networking/NetworkManager.cpp:250-287 | after any run a packet has expired if and only if its timer fired after the last permitted transmission before a header acknowledging it was heard |
| `Expiry.FiringDecides` | src/Networking/NetworkManager.cpp:258-272 | at the firing after the last permitted transmission the packet's fate is settled for good: it is among the expired ever after if and only if no earlier header acknowledged it |
| `Expiry.HeardMeansAcked` | src/Networking/NetworkManager.cpp:121-143 | a packet that has not expired is struck off if and only if a header acknowledging it was heard |
| `Expiry.ExpiresOverNetworkIff` | src/Networking/NetworkManager.cpp:121-287 | the same between two peers over any network; a packet for which such a header was heard in time was delivered |
| `Silence.SilenceSaysNothing` | src/Networking/NetworkManager.cpp:170-219 | a side with nothing due that receives only duplicates and hands nothing to its transport puts nothing on the wire, over runs of any length; its peer strikes off only what headers already there acknowledge |
| `Silence.LostAckIsNotRepeated` | src/Networking/NetworkManager.cpp:170-287 | when all headers on the wire that acknowledge a pending packet are lost, retransmitting it to such a side never gets it struck off, and when the send path stops it has expired |
| `SequenceWrap.FreshHeaderAcksOnlyWordZero` | src/Networking/NetworkManager.cpp:289-307 | the header of a side that received nothing acknowledges the 2^32-th packet and none before it |
| `SequenceWrap.UndeliveredIsStruckOff` | src/Networking/NetworkManager.cpp:96-143 | there is a run with 2^32 sends in which a header strikes off a packet although the peer has accepted nothing: the bound cannot be raised |
| `WireHeaders.WireStaysOnChannel` | src/Networking/NetworkManager.cpp:188-219 | over every run each packet on the wire is on the channel of its two sides and is either what was submitted under its sequence or a bare acknowledgement: sequence 0, unreliable, flagged, empty |
| `WireHeaders.MadeHeadersSpeak` | src/Networking/NetworkManager.cpp:102-110 | at either side a packet handed over for sending or sending again, and an acknowledgement, speaks for the window of that moment |
| `WireHeaders.DataAcknowledges` | src/Networking/NetworkManager.cpp:96-143 | over the wire: after one side has accepted a packet its next data packet settles it at the other, with exactly what else the window covers |
| `NetworkManager.KeyInjective` | src/Networking/NetworkManager.cpp:84-88 | two peers share a connection record only if they are the same address and port |
| `NetworkManager.StoredIsolates` | include/Networking/NetworkManager.h:81-83 | writing one channel record is invisible through every other peer and channel |
| `NetworkManager.Manager.EnableUdpReliability` | src/Networking/NetworkManager.cpp:73-76 | switches one channel and leaves every other |
| `NetworkManager.Manager.ConfigureUdpRetransmission` | src/Networking/NetworkManager.cpp:78-82 | a retry limit of 0 means 1 |
| `NetworkManager.Manager.Send` | src/Networking/NetworkManager.cpp:29-37 | which packets ride on UDP, on TCP, or on UDP with a sequence, the window's acknowledgement, a pending entry and a timer |
| `NetworkManager.Manager.SendReliableUdp` | src/Networking/NetworkManager.cpp:96-119 | field by field: the packet sent has the next number, the window's last and mask and is otherwise the caller's; the same packet is pending with no retries, one timer for it starts, other channels are untouched |
| `NetworkManager.Manager.RecordAck` | src/Networking/NetworkManager.cpp:121-143 | the collect-and-erase loops remove exactly the acknowledged entries; an unknown channel stays unknown |
| `NetworkManager.CollectAcked` | src/Networking/NetworkManager.cpp:132-138 | the loop collects exactly the pending sequences the header acknowledges |
| `NetworkManager.EraseAll` | src/Networking/NetworkManager.cpp:139-142 | the loop erases exactly the given sequences |
| `NetworkManager.Manager.HandleIncomingSequence` | src/Networking/NetworkManager.cpp:145-186 | the branches written out field by field amount to the classification and the window step the properties are proved about; an acknowledgement is due afterwards if it was before or the packet is new |
| `NetworkManager.Manager.MaybeSendAck` | src/Networking/NetworkManager.cpp:188-219 | if an acknowledgement is due, one empty unreliable packet with sequence 0, the Ack flag and the window goes out on this channel and the due flag is cleared; else nothing |
| `NetworkManager.Manager.Receive` | src/Networking/NetworkManager.cpp:39-71 | a TCP packet goes to the caller and changes nothing; without one, the caller gets the datagram exactly when it is delivered, and at most one acknowledgement goes out |
| `NetworkManager.Manager.ReceiveDatagram` | src/Networking/NetworkManager.cpp:49-70 | acknowledgement, window and answer of one datagram amount to the undisturbed `receive` of its channel; it reaches the caller unless it is a bare acknowledgement or no longer new; other channels are untouched |
| `NetworkManager.Manager.RetransmitAfter` | src/Networking/NetworkManager.cpp:250-287 | nothing for a settled packet, removal at the limit, else one more copy whose acknowledgement is the window of now, one retry more on record and one more timer |
| `NetworkManager.Manager.constructor` | include/Networking/NetworkManager.h:65-79 | at first no channel has sent, received or owes anything |
| `TwoManagers.AnswerSettles` | src/Networking/NetworkManager.cpp:39-71 | between two managers: what one sends on receiving a new packet, given to the other, settles that packet on the channel it came on, reaches no application and touches no other channel |
| `TwoManagers.DataSettles` | src/Networking/NetworkManager.cpp:96-143 | so does the next data packet the receiving manager sends on that channel |
| `TwoManagers.RetrySettles` | src/Networking/NetworkManager.cpp:258-287 | and so does the next one it sends again |
| `GraphBooks.StepKeepsBooks` | src/Async/TaskScheduler.cpp:108-125 | every step, whichever calls it interrupts, keeps: counter plus uncounted registration is the number of unprocessed registrations modulo 2^32, duplicates included, and a call's own count covers what is still owed to its task |
| `GraphBooks.StartsStep` | src/Async/TaskScheduler.cpp:100-125 | start jobs are made by the release that finds the counter at 1 and by the call that counted nothing, one each, and lost only when a job meets a task that has started |
| `TaskOrder.NothingOwedMeansReady` | include/Async/Task.h:534-558 | a task with no registration left to process and no open token left to register has only completed dependencies |
| `TaskOrder.StepKeepsInv` | include/Async/Task.h:498-561 | every step keeps: each listed dependency is completed, yet to be registered, or holds the registration, and nobody else holds one; who has been resumed is no longer idle |
| `TaskStarts.PrematureGuard` | include/Async/Task.h:543-553 | a release that makes its task ready does so while a listed task is open if and only if it falls into the task's own call and either the call has an open token left, or a registration of the task is uncounted and an open task holds one |
| `TaskStarts.PunctualStep` | include/Async/Task.h:525-561 | unless the step is such a release, whoever has a start job keeps finding all listed tasks completed |
| `TaskStarts.SingleStep` | include/Async/Task.h:525-561 | unless the step is a release that finds counter 1 during the call with an open token or an uncounted registration left, at most one start job and at most one resumption remain |
| `TaskStarts.LostStep` | include/Async/Task.h:550-558 | a scheduled task becomes one that nobody will start exactly when its call ends with a non-zero count, nothing owed and no start job, and stays so |
| `TaskRuns.RunKeepsInv` | include/Async/Task.h:498-561 | the invariant over every run |
| `TaskRuns.CounterIsOwed` | include/Async/Task.h:550-553 | in every reachable state the counter, with an uncounted registration, is the number of unprocessed registrations modulo 2^32 |
| `TaskRuns.DependenciesCompleteFirst` | include/Async/Task.h:525-561 | in every run without a premature release of it, a body that has started finds every listed dependency completed |
| `TaskRuns.StartOrderExtendsDependencies` | include/Async/Task.h:525-561 | in such runs every start of a task comes after one of each task it lists |
| `TaskRuns.StartedOnce` | src/Async/TaskScheduler.cpp:100-125 | in every run without a harmful release of it, a body is resumed by at most one job, queued and ready start jobs included, and not early |
| `TaskRuns.LastRegistrationStarts` | src/Async/TaskScheduler.cpp:112-118 | in every reachable state processing a registration makes its owner ready if and only if it was the last one that is counted |
| `TaskRuns.QuietMeansComplete` | src/time/FrameScheduler.cpp:40-44 | with an empty queue, no call under way and nobody running or finishing, each scheduled task is complete when tokens come from earlier calls and no start is lost |
| `TaskRuns.RunLost` | include/Async/Task.h:550-558 | a task has lost its start exactly when some call of the run ended under the guard of `LostStep` |
| `TaskRuns.LostForGood` | include/Async/Task.h:556-558 | such a task is scheduled and not complete in every continuation |
| `TaskRuns.LostIffLoses` | include/Async/Task.h:550-558 | a reachable state holds a task with a lost start exactly when some call of the run lost one |
| `TaskRuns.StrandedIff` | src/time/FrameScheduler.cpp:40-44 | a quiet reachable state has every scheduled task complete if and only if no call of the run lost a start |
| `TaskRuns.CalmRunIsHarmless` | include/Async/Task.h:543-553 | runs in which no task is released during its own call meet all the guards |
| `TaskRuns.CalmRunsAreSound` | include/Async/Task.h:525-561 | so in those runs order holds, no body starts twice, and no start is lost |
| `TaskDrain.StepLowers` | src/Async/TaskScheduler.cpp:24-45 | every step that brings no new work lowers a measure, calm or not |
| `TaskDrain.RunIsBounded` | src/Async/TaskScheduler.cpp:24-45 | so runs without new work are bounded |
| `TaskDrain.NotQuietCanStep` | src/Async/TaskScheduler.cpp:24-45 | unless the scheduler is quiet some calm step can be taken |
| `TaskDrain.ExhaustedMeansComplete` | src/time/FrameScheduler.cpp:40-44 | when no step is left but new work, every scheduled task is complete, so that waiting for all returns, if and only if no call of the run lost a start |
| `TaskQueue.QueueIsFifo` | src/Async/TaskScheduler.cpp:92-98 | over any run jobs are taken in the order in which they were enqueued, whoever enqueued them |
| `TaskQueue.StartedInQueueOrder` | src/Async/TaskScheduler.cpp:24-45 | the log of resumptions follows the order of the jobs taken |
| `TaskNecessity.PrematureIff` | include/Async/Task.h:543-553 | after any run without a premature release of the task, a release of it is premature if and only if some continuation without another one starts the body while a listed task is open |
| `TaskNecessity.HarmfulIff` | include/Async/Task.h:543-553 | after any run without a harmful release of the task, a release of it is harmful if and only if some continuation without another one starts the body early or gives it a second start job |
| `TaskNecessity.PrematureStartsEarly` | src/Async/TaskScheduler.cpp:108-125 | constructs the continuation that starts the body early |
| `TaskNecessity.UncountedStartsTwice` | src/Async/TaskScheduler.cpp:108-125 | constructs the continuation with a second start job: count, and release again |
| `TaskRace.RaceStartsEarly` | include/Async/Task.h:543-553 | a run that starts a body before a listed dependency completed |
| `TaskRace.RaceLosesStart` | include/Async/Task.h:550-558 | a run that takes a task's counter from 0 to 2^32 - 1 by a release and back to 0, and falls quiet with that task scheduled and not complete |
| `TaskRace.RaceStartsTwice` | src/Async/TaskScheduler.cpp:100-106 | a run that resumes a running body a second time |
| `TaskScheduler.Scheduler.Schedule` | include/Async/Task.h:525-561 | the counter becomes the number of open tokens, each open dependency gains as many entries as it is mentioned, and the start is enqueued at once exactly when there are none |
| `TaskScheduler.Scheduler.OnTaskFinished` | src/Async/TaskScheduler.cpp:108-125 | every counter drops by its entries in the list, and exactly the tasks this brings to zero are enqueued, once each, in the order in which the list brings them there |
| `TaskScheduler.ZeroedInOrder` | src/Async/TaskScheduler.cpp:112-124 | that order is the order of the registrations that brought their owners to zero |
| `TaskScheduler.Scheduler.ReleaseDependents` | src/Async/TaskScheduler.cpp:110-120 | the loop over the list, with the list cleared and nothing enqueued yet |
| `TaskScheduler.Scheduler.HandReady` | src/Async/TaskScheduler.cpp:122-124 | the ready tasks are appended to the queue in order |
| `TaskScheduler.Scheduler.Work` | src/Async/TaskScheduler.cpp:24-45 | any single step a worker takes without a call under way keeps the calm invariant |
| `TaskScheduler.Scheduler.RunWorker` | src/Async/TaskScheduler.cpp:24-45 | the loop of one worker with nobody else at work, whole jobs at a time: it ends, and unless the scheduler was stopped it leaves it quiet |
| `TaskScheduler.Scheduler.RunWorkers` | src/Async/TaskScheduler.cpp:24-45 | any number of workers taking turns in any order, from any state without a call under way, come to rest; unless the scheduler was stopped it is then quiet, with every scheduled task complete when tokens come from earlier calls; if it was stopped no further job is popped |
| `TaskScheduler.Scheduler.constructor` | src/Async/TaskScheduler.cpp:51-59 | there is at least one worker, whatever was asked for |
| `TaskScheduler.Scheduler.Stop` | src/Async/TaskScheduler.cpp:76-90 | clears the flag the worker loop reads |
| `FrameScheduler.Frame.Schedule` | src/time/FrameScheduler.cpp:11-19 | the new task lists the given tokens and is suspended, older tasks stay as they are; a name already in use keeps its first token |
| `FrameScheduler.Frame.ScheduleAfter` | src/time/FrameScheduler.cpp:21-38 | a delay task is scheduled first, without dependencies, and joined to the given ones; older tasks stay as they are |
| `FrameScheduler.Frame.WaitForAll` | src/time/FrameScheduler.cpp:40-44 | waits for one token after the other while the workers go on with whatever jobs they have; it comes to its end with every named task complete unless the scheduler was stopped |
| `Continuations.StepKeepsInv` | include/Async/Task.h:457-510 | every locked section keeps each registered handle in exactly one place: kept, taken, to be resumed by its registrar, or resumed |
| `Continuations.ResumedExactlyOnce` | include/Async/Task.h:457-510 | under every interleaving no handle is resumed more often than registered or before completion, and exactly as often once both sides are done |
| `Continuations.ResumedInOrder` | include/Async/Task.h:477-491 | under every interleaving the handles in the list are resumed in the order of registration |
| `Continuations.UnresumedCanProgress` | include/Async/Task.h:457-491 | while a registered handle is not resumed, some thread can take it further |
| `Continuations.TaskState.AddContinuation` | include/Async/Task.h:457-475 | undisturbed: kept before completion, resumed on the spot after it |
| `Continuations.TaskState.OnCompleted` | include/Async/Task.h:477-510 | undisturbed: every kept handle is resumed once, in order, and the list is empty |
| `MemoryManager.TotalWithout` | src/Memory/Core/MemoryManager.cpp:68-73 | the byte total does not depend on the order in which the hash table is visited |
| `MemoryManager.BucketsSumToTotals` | src/Memory/Core/MemoryManager.cpp:97-119 | one exact bucket per occurring tag hash adds up to the total bytes and the allocation count |
| `MemoryManager.MemoryManager.RegisterAllocation` | src/Memory/Core/MemoryManager.cpp:34-42 | the entry of the pointer is set, an older one replaced |
| `MemoryManager.MemoryManager.UnregisterAllocation` | src/Memory/Core/MemoryManager.cpp:44-55 | the entry of the pointer is gone; an unknown pointer changes nothing |
| `MemoryManager.MemoryManager.GetTotalAllocated` | src/Memory/Core/MemoryManager.cpp:68-73 | the loop returns the order-independent sum of all sizes |
| `MemoryManager.MemoryManager.GetAllocatedByTag` | src/Memory/Core/MemoryManager.cpp:86-95 | the loop returns the sum over entries with an equal tag hash |
| `MemoryManager.MemoryManager.Snapshot` | src/Memory/Core/MemoryManager.cpp:97-119 | buckets partition the table by tag hash, each carries the tag of one of its entries, and they add up to the totals |
| `MemoryManager.CollectBuckets` | src/Memory/Core/MemoryManager.cpp:114-117 | every bucket is listed once, whatever the order |
| `VectorGrowth.MovesPayForCapacity` | include/containers/Sequential/SoulVector.h:240-247 | over any run without shrinking, the elements moved by doubling equal the capacity gained and not reserved, and are fewer than two per insertion |
| `VectorGrowth.InsertOnlyCost` | include/containers/Sequential/SoulVector.h:240-286 | over n insertions alone the moves equal final capacity minus inline capacity, below 2n |
| `VectorGrowth.InsertsPayForCapacity` | include/containers/Sequential/SoulVector.h:240-286 | insertions from any shape move exactly the capacity they add, and if they add any, fewer than two elements for each element then held |
| `VectorGrowth.ShrunkIsLeast` | include/containers/Sequential/SoulVector.h:146-154 | shrinking leaves the least capacity a vector of that size can have; doing it again changes and costs nothing |
| `SoulVector.WithoutExactly` | include/containers/Sequential/SoulVector.h:87-91 | removal takes out every copy of the value and no other element |
| `SoulVector.WithoutConcat` | include/containers/Sequential/SoulVector.h:87-91 | and keeps the rest in order: it distributes over concatenation |
| `SoulVector.DestroyRange` | include/containers/Sequential/SoulVector.h:233-237 | needs a constructed range, leaves it raw and the rest alone |
| `SoulVector.Allocate` | include/Memory/Core/TaggedMemoryAllocator.h:26-31 | a fresh raw block, registered with its size and the vector tag in the allocator's manager |
| `SoulVector.Deallocate` | include/Memory/Core/TaggedMemoryAllocator.h:33-39 | null changes nothing; of any other block, which must hold no live element, the entry is gone, and a block the manager does not know changes nothing |
| `SoulVector.CompactFrom` | include/containers/Sequential/SoulVector.h:87-91 | the shifting loop leaves the kept elements in front, everything up to the old end constructed, and never moves an element onto itself |
| `SoulVector.SoulVector.constructor` | include/containers/Sequential/SoulVector.h:32-36 | empty, in inline storage |
| `SoulVector.SoulVector.FromValues` | include/containers/Sequential/SoulVector.h:38-44 | the given elements in exactly the room they need, one claim taken up |
| `SoulVector.SoulVector.Copy` | include/containers/Sequential/SoulVector.h:53-59 | equal contents in exactly the room they need, own storage, the manager of the original, which is unchanged |
| `SoulVector.SoulVector.Move` | include/containers/Sequential/SoulVector.h:61-64 | contents, block and manager pass over; the source is empty and inline; no table changes |
| `SoulVector.SoulVector.AssignCopy` | include/containers/Sequential/SoulVector.h:66-72 | copy and swap: the old block leaves its own manager, the new one is registered in the other's, self-assignment does nothing |
| `SoulVector.SoulVector.AssignMove` | include/containers/Sequential/SoulVector.h:74-81 | the old block leaves its own manager, the adopted one stays registered where it was and the allocator follows it |
| `SoulVector.SoulVector.Insert` | include/containers/Sequential/SoulVector.h:85-85 | appends one element; capacity, moves and table change as growth says, and the block is the old one or a new one |
| `SoulVector.SoulVector.EmplaceBack` | include/containers/Sequential/SoulVector.h:239-247 | appends one element into raw memory, doubling only a full block |
| `SoulVector.SoulVector.Remove` | include/containers/Sequential/SoulVector.h:87-91 | contents without the value, no slot left moved-from |
| `SoulVector.SoulVector.Erase` | include/containers/Sequential/SoulVector.h:93-103 | drops one element, keeping the order; a position outside is answered with the end and changes nothing |
| `SoulVector.SoulVector.GetAll` | include/containers/Sequential/SoulVector.h:105-112 | the contents in order |
| `SoulVector.SoulVector.Reserve` | include/containers/Sequential/SoulVector.h:139-144 | contents kept, capacity exactly the larger of the two, a new block exactly when it grew |
| `SoulVector.SoulVector.ShrinkToFit` | include/containers/Sequential/SoulVector.h:146-154 | contents kept; inline with the inline capacity when they fit, else capacity and registered bytes are those of the elements; no moves when it is already so |
| `SoulVector.SoulVector.Clear` | include/containers/Sequential/SoulVector.h:156-159 | empty, same storage |
| `SoulVector.SoulVector.AppendRange` | include/containers/Sequential/SoulVector.h:161-173 | a sized range: appends all values after one reservation, without growing again, and moves only what the reservation moves |
| `SoulVector.SoulVector.AppendEach` | include/containers/Sequential/SoulVector.h:161-173 | a range of unknown size: appends all values; the elements moved are the capacity gained, and if any was gained fewer than two for each element then held |
| `SoulVector.SoulVector.ConstructLast` | include/containers/Sequential/SoulVector.h:245-246 | constructs the new element in the first raw slot |
| `SoulVector.SoulVector.Swap` | include/containers/Sequential/SoulVector.h:185-192 | the two exchange contents, blocks and managers, and no table changes, also between different managers and storage modes |
| `SoulVector.SoulVector.ReleaseStorage` | include/containers/Sequential/SoulVector.h:203-211 | every element destroyed, the block given back, the claim gone |
| `SoulVector.SoulVector.AdoptFrom` | include/containers/Sequential/SoulVector.h:213-231 | takes the block over, or the inline elements one by one; nothing is registered anew |
| `SoulVector.SoulVector.Reallocate` | include/containers/Sequential/SoulVector.h:249-286 | contents kept, the old claim exchanged for the new one, no element left behind in the old block |
| `SoulVector.SoulVector.MoveToSmall` | include/containers/Sequential/SoulVector.h:288-301 | contents kept in inline storage, the claim given up |
| `VectorAccounts.StepKeepsBalance` | include/containers/Sequential/SoulVector.h:53-83 | any operation on any vectors keeps every block registered with the manager its owner points to, every vector-tagged entry owned, and blocks unshared |
| `VectorAccounts.RunKeepsBalance` | include/containers/Sequential/SoulVector.h:53-302 | the same over every run |
| `VectorAccounts.ReportedBytesAreHeld` | src/Memory/Core/MemoryManager.cpp:86-95 | the vector bytes a manager reports are capacity times element size over the heap-mode vectors pointing to it, and zero when all vectors are destroyed |
| `VectorAccounts.BlocksFollowTheirOwner` | include/containers/Sequential/SoulVector.h:213-231 | after any moves, assignments and swaps a block is registered with the manager its present owner's allocator points to, and with no other |
| `VectorAccounts.SwapIsThreeAdoptions` | include/containers/Sequential/SoulVector.h:185-192 | the step of a swap is what three adoptions through a third vector amount to |
| `VectorWorld.OwnStep` | include/containers/Sequential/SoulVector.h:85-173 | among any set of vector objects, a method with the common contract of the one-vector methods is the step that exchanges that vector's storage; all books balance again |
| `VectorWorld.SwapStep` | include/containers/Sequential/SoulVector.h:185-192 | the contract of `Swap` is the swap step |
| `VectorWorld.AssignMoveStep` | include/containers/Sequential/SoulVector.h:74-81 | the contract of the move assignment is the move-assignment step |
| `VectorWorld.AssignCopyStep` | include/containers/Sequential/SoulVector.h:66-72 | the contract of the copy assignment is the copy-assignment step, with one manager or two |
| `VectorWorld.CreateStep` | include/containers/Sequential/SoulVector.h:32-36 | construction joins an empty account to the books, whatever the element sizes and inline capacities of the others |
| `VectorWorld.MoveNewStep` | include/containers/Sequential/SoulVector.h:61-64 | the contract of the move constructor is its step |
| `VectorWorld.CopyNewStep` | include/containers/Sequential/SoulVector.h:53-59 | the contract of the copy constructor is its step |
| `VectorWorld.DestroyStep` | include/containers/Sequential/SoulVector.h:83-83 | releasing the storage of a vector and dropping it from the set is the destruction step |
| `VectorWorld.BooksReportHeldBytes` | src/Memory/Core/MemoryManager.cpp:86-95 | in any state of the objects in which the books hold, the vector bytes a manager reports are what its heap-mode vectors hold |
| `VectorWorld.InsertStep` | include/containers/Sequential/SoulVector.h:85-85 | calling `Insert` among other vectors keeps the books by that step |
| `VectorWorld.AppendRangeStep` | include/containers/Sequential/SoulVector.h:161-173 | likewise for a sized range |
| `VectorWorld.AppendEachStep` | include/containers/Sequential/SoulVector.h:161-173 | likewise for a range of unknown size |
| `VectorWorld.ReserveStep` | include/containers/Sequential/SoulVector.h:139-144 | likewise for `Reserve` |
| `VectorWorld.ShrinkStep` | include/containers/Sequential/SoulVector.h:146-154 | likewise for `ShrinkToFit` |
| `VectorWorld.ClearStep` | include/containers/Sequential/SoulVector.h:156-159 | likewise for `Clear` |
| `VectorWorld.RemoveStep` | include/containers/Sequential/SoulVector.h:87-91 | likewise for `Remove` |
| `VectorWorld.EraseStep` | include/containers/Sequential/SoulVector.h:93-103 | likewise for `Erase` |
| `VectorWorld.DestroyVector` | include/containers/Sequential/SoulVector.h:83-83 | likewise for the destructor |
| `VectorWorld.SwapVectors` | include/containers/Sequential/SoulVector.h:185-192 | likewise for `Swap` of two vectors of the set with one element size and inline capacity |
| `VectorWorld.AssignMoved` | include/containers/Sequential/SoulVector.h:74-81 | likewise for move assignment between two such vectors |
| `VectorWorld.AssignCopied` | include/containers/Sequential/SoulVector.h:66-72 | likewise for copy assignment between two such vectors |
| `VectorWorld.NewVector` | include/containers/Sequential/SoulVector.h:32-36 | likewise for a new empty vector |
| `VectorWorld.NewMoved` | include/containers/Sequential/SoulVector.h:61-64 | likewise for move construction |
| `VectorWorld.NewCopied` | include/containers/Sequential/SoulVector.h:53-59 | likewise for copy construction |
| `PoolAllocator.StrideIsLeast` | include/Memory/Core/PoolAllocator.h:89-92 | the stride is the least multiple of the alignment that fits the object and a free node |
| `PoolAllocator.BlocksInRange` | include/Memory/Core/PoolAllocator.h:71-87 | blocks lie in the allocation and are as aligned as it is |
| `PoolAllocator.BlocksDisjoint` | include/Memory/Core/PoolAllocator.h:79-87 | two blocks do not overlap |
| `PoolAllocator.FreshIsSound` | include/Memory/Core/PoolAllocator.h:79-87 | building lists every block once, the last in front |
| `PoolAllocator.AllocateHandsOutAFreeBlock` | include/Memory/Core/PoolAllocator.h:39-47 | a result is a block nobody holds; null exactly when every block is out |
| `PoolAllocator.AllocateKeepsList` | include/Memory/Core/PoolAllocator.h:39-47 | taking a block removes exactly the head of the list |
| `PoolAllocator.DeallocateKeepsList` | include/Memory/Core/PoolAllocator.h:49-57 | returning one puts exactly that block in front, whatever its owner wrote into it |
| `PoolAllocator.ScribbleKeepsList` | include/Memory/Core/PoolAllocator.h:66-69 | writes into blocks that are out, link words included, leave the list as it is |
| `PoolAllocator.StepKeepsList` | include/Memory/Core/PoolAllocator.h:39-61 | every operation keeps the list acyclic, without repetition, and exactly the blocks that are not out |
| `PoolAllocator.RunKeepsList` | include/Memory/Core/PoolAllocator.h:39-61 | the same over every run |
| `PoolAllocator.FreeListIsExact` | include/Memory/Core/PoolAllocator.h:39-64 | after any run of a new pool: the counter is the length of the list, counter and blocks out make up the capacity, no block is handed out twice |
| `PoolAllocator.LastInFirstOut` | include/Memory/Core/PoolAllocator.h:39-57 | returning a block and allocating gives the same block and restores the list |
| `PoolAllocator.TakeWriteReturn` | include/Memory/Core/PoolAllocator.h:39-57 | allocating, writing at will and returning restores the list |
| `PoolAllocator.PoolAllocator.BuildFreeList` | include/Memory/Core/PoolAllocator.h:79-87 | the loop builds the list of all blocks: the last block is in front and each holds the address of the one below it, the first block null |
| `PoolAllocator.PoolAllocator.Allocate` | include/Memory/Core/PoolAllocator.h:39-47 | null exactly when all blocks are out, else the head of the list, which was not out, and the list goes on where its word points |
| `PoolAllocator.PoolAllocator.Deallocate` | include/Memory/Core/PoolAllocator.h:49-57 | null is ignored; an outstanding block gets the old head written into it and becomes the head |
| `PoolAllocator.PoolAllocator.Reset` | include/Memory/Core/PoolAllocator.h:59-61 | every block is free again |
| `Bits.BitShiftLeft` | src/Networking/NetworkManager.cpp:158-168 | a left shift moves every digit up and drops those that leave the word |
| `Bits.TestBit` | src/Networking/NetworkManager.cpp:176-179 | masking with one shifted digit tests that digit |
| `ArenaAllocator.MaskClears` | include/Memory/Core/ArenaAllocator.h:67-69 | masking with the complement of 2^k - 1 rounds down to a multiple of 2^k |
| `ArenaAllocator.AlignRoundsUpIff` | include/Memory/Core/ArenaAllocator.h:67-69 | for a power of two the expression is the least multiple not below the value if and only if the sum in it does not wrap; when it does the result is 0 |
| `ArenaAllocator.LeastMultipleIsLeast` | include/Memory/Core/ArenaAllocator.h:67-69 | that multiple is below every other one not below the value |
| `ArenaAllocator.OnlyPowersOfTwoAlign` | include/Memory/Core/ArenaAllocator.h:67-69 | an alignment rounds 1 up correctly if and only if it is a power of two |
| `ArenaAllocator.PlacedSoundIff` | include/Memory/Core/ArenaAllocator.h:42-50 | a region handed out is behind the old offset and within the buffer if and only if neither the rounding nor its end wraps |
| `ArenaAllocator.FirstPlaceThatFits` | include/Memory/Core/ArenaAllocator.h:42-50 | without wrap-around a request fails only if no aligned place fits, and else gets the first |
| `ArenaAllocator.HugeSizeGoesBackwards` | include/Memory/Core/ArenaAllocator.h:44-48 | a size close to 2^64 passes the bounds check and moves the offset back |
| `ArenaAllocator.ServeKeepsLayout` | include/Memory/Core/ArenaAllocator.h:42-58 | each request keeps the regions since the last reset at aligned offsets, in bounds, increasing and disjoint, and the offset at the end of the last |
| `ArenaAllocator.RunKeepsLayout` | include/Memory/Core/ArenaAllocator.h:42-58 | the same over every run |
| `ArenaAllocator.FailsOnlyWhenFull` | include/Memory/Core/ArenaAllocator.h:42-50 | over whole runs a request fails if and only if no aligned place behind the last region fits, and otherwise gets the first one |
| `ArenaAllocator.AddressAlignedIff` | include/Memory/Core/ArenaAllocator.h:65-74 | a region at an aligned offset has an aligned address wherever a buffer of the guaranteed alignment lies if and only if it asks for no more than that alignment |
| `ArenaAllocator.AddressesAligned` | include/Memory/Core/ArenaAllocator.h:42-50 | after any run, every region that asks for no more than that has an aligned address |
| `ArenaAllocator.ArenaAllocator.Create` | include/Memory/Core/ArenaAllocator.h:20-28 | an empty capacity is refused |
| `ArenaAllocator.ArenaAllocator.Allocate` | include/Memory/Core/ArenaAllocator.h:42-50 | the place the arithmetic gives, with the offset left at the end of the region modulo 2^64; a refused request changes nothing |
| `ArenaAllocator.ArenaAllocator.Reset` | include/Memory/Core/ArenaAllocator.h:58-58 | the offset is 0 and the whole buffer is free again |
| `SoulFlatMap.PositionSplits` | include/containers/Associative/SoulFlatMap.h:155-167 | in a strictly ordered vector one position separates the smaller keys from the rest |
| `SoulFlatMap.Found` | include/containers/Associative/SoulFlatMap.h:169-183 | an entry of the class anywhere in the vector is the one the search finds |
| `SoulFlatMap.GetIff` | include/containers/Associative/SoulFlatMap.h:119-149 | the search answers an entry exactly when it is in the vector and its key is in the class |
| `SoulFlatMap.InsertAgrees` | include/containers/Associative/SoulFlatMap.h:48-55 | insertion keeps the order, overwrites the value of its class, keeps the first key and disturbs no other class |
| `SoulFlatMap.RemoveAgrees` | include/containers/Associative/SoulFlatMap.h:58-63 | removal empties its class and no other |
| `SoulFlatMap.TouchAgrees` | include/containers/Associative/SoulFlatMap.h:131-137 | `operator[]` adds a default value only to an empty class |
| `SoulFlatMap.WriteAgrees` | include/containers/Associative/SoulFlatMap.h:140-149 | writing through the found pointer changes that class only |
| `SoulFlatMap.StepAgrees` | include/containers/Associative/SoulFlatMap.h:48-149 | any operation, seen from any key, has its effect on the class of its key alone |
| `SoulFlatMap.RunStaysSorted` | include/containers/Associative/SoulFlatMap.h:48-137 | over any run the vector stays strictly ordered, hence has one entry a class |
| `SoulFlatMap.AgreesWithHistory` | include/containers/Associative/SoulFlatMap.h:119-149 | after any run the search for any key answers the first key inserted since the class was last absent and the value written last |
| `SoulFlatMap.LastOperation` | include/containers/Associative/SoulFlatMap.h:48-149 | what each operation as the last of a run leaves for its key: the value written, none, or the old one or the default |
| `SoulFlatMap.HoldsTheHistory` | include/containers/Associative/SoulFlatMap.h:48-70 | an entry is in the vector exactly when the history yields it |
| `SoulFlatMap.RangeIsHistory` | include/containers/Associative/SoulFlatMap.h:103-116 | inserting a range is inserting its elements one after the other |
| `SoulFlatMap.SoulFlatMap.LowerBound` | include/containers/Associative/SoulFlatMap.h:155-167 | the bisection loop finds the separating position |
| `SoulFlatMap.SoulFlatMap.Insert` | include/containers/Associative/SoulFlatMap.h:48-55 | the vector of the specification, still ordered |
| `SoulFlatMap.SoulFlatMap.Remove` | include/containers/Associative/SoulFlatMap.h:58-63 | likewise for removal |
| `SoulFlatMap.SoulFlatMap.At` | include/containers/Associative/SoulFlatMap.h:131-137 | the position of the entry of the class, made if absent |
| `SoulFlatMap.SoulFlatMap.FindIterator` | include/containers/Associative/SoulFlatMap.h:169-183 | the entry of the class, or the end exactly when no entry is in it |
| `SoulFlatMap.SoulFlatMap.Contains` | include/containers/Associative/SoulFlatMap.h:119-119 | true exactly when some entry is in the class |
| `SoulFlatMap.SoulFlatMap.Lookup` | include/containers/Associative/SoulFlatMap.h:122-128 | the value of the entry of the class, none exactly when there is none |
| `SoulFlatMap.SoulFlatMap.FindAndWrite` | include/containers/Associative/SoulFlatMap.h:140-149 | writes into the entry of the class if there is one |
| `SoulFlatMap.SoulFlatMap.InsertRange` | include/containers/Associative/SoulFlatMap.h:103-116 | the fold of single insertions |
| `XorCipher.RotateModulo` | src/FileSystem/Encryption/AesEncryption.cpp:43-45 | rotating a byte n times is one rotation by n modulo 8 |
| `XorCipher.RotationMovesDigits` | src/FileSystem/Encryption/AesEncryption.cpp:44-44 | rotation moves each binary digit up by as many places, round the byte |
| `XorCipher.MaskingTwice` | src/FileSystem/Encryption/AesEncryption.cpp:51-57 | decryption undoes encryption for all data, keys and vectors, empty ones included |
| `XorCipher.StreamRepeats` | src/FileSystem/Encryption/AesEncryption.cpp:30-46 | the key stream repeats with every period that 128 and both lengths divide |
| `XorCipher.AesEncryption.Encrypt` | src/FileSystem/Encryption/AesEncryption.cpp:15-49 | byte i is data[i] xor key[i mod n] rotated left by ceil(i / 16) mod 8 places xor the byte of the vector at i mod its length; an empty key leaves the data as it is |
| `XorCipher.AesEncryption.MaskAll` | src/FileSystem/Encryption/AesEncryption.cpp:15-49 | the loop that changes its copy of the key as it goes equals that closed form |
| `XorCipher.NextKey` | src/FileSystem/Encryption/AesEncryption.cpp:43-45 | keeps the key rotated as the random-access form has it: once for every sixteenth byte |
| `XorCipher.MaskByte` | src/FileSystem/Encryption/AesEncryption.cpp:31-34 | a byte is combined with the current key byte and the current byte of the vector by exclusive or, which is the byte masked by random access |
| `XorCipher.Following` | src/FileSystem/Encryption/AesEncryption.cpp:36-40 | the positions in key and vector go round with their lengths |
| `XorCipher.AesEncryption.Decrypt` | src/FileSystem/Encryption/AesEncryption.cpp:51-57 | the same masking as encryption, byte by byte |
| `XorCipher.AesEncryption.RoundTrip` | src/FileSystem/Encryption/AesEncryption.cpp:15-57 | what was encrypted is read back unchanged |
| `XorCipher.RotateKey` | src/FileSystem/Encryption/AesEncryption.cpp:44-44 | the inner loop rotates every key byte once |

## Left out

Network:
- sockets, transports, endpoint parsing, clients and servers: the wire is a set of packets.
- real time: the sleep before a retry is a timer event that may happen at any moment, and `lastSent` is dropped.
- toggling the reliability of a channel during a run, and unreliable or ack-imitating application packets on a reliable channel: both sides have the channel enabled throughout and submit packets that are not an empty payload with the Ack flag.
- DeliveredAtMostTwice: assumes fewer than 2^31 sends by the sender, the range in which serial order is meaningful for packets that may be delayed for the whole run; for longer runs `AcceptedTwiceShape` states the same under the distance condition itself.

Tasks:
- memory orders, thread creation, and the idle wait of workers; a `stop` that comes while a worker waits for the queue, which then may still pop one job.
- RunWorkers: no call of `schedule` is under way while the workers run; calls and workers interleaved are the steps of `TaskGraph`.
- what the program does after a running coroutine was resumed a second time, which is undefined; the model logs the resumption and lets the task run on.
- coroutine frames, results and exceptions; `get` and `co_await` resuming a coroutine that is also scheduled; `run_async` tasks, which are queued at creation and not gated by dependencies.
- destruction of tasks whose `weak_ptr` stands in a dependent list: those of the model stay.
- lists of 2^32 or more tokens in one call of `schedule`.

Vector and memory:
- arguments that alias the vector's own storage, and exceptions thrown by element operations; moves where the code chooses between move and copy.
- overflow of `size_t` in doubling and in byte counts.
- `sort`, `findAll`, `findFirst`, and constructors from ranges other than a list of values.
- the copying constructors read the original through `GetAll` instead of an iterator; construction from a list has no step of its own in `VectorWorld`, being an empty construction followed by `AppendRange`.
- vectors of different element types among one set in `VectorWorld` are of one Dafny type with different element sizes and inline capacities.
- debug output, leak reports, clearing a manager, and the hash behind tag names; tags are compared by hash as in the code.

Pool and arena:
- registration of the pool's and the arena's single buffer with their manager.
- foreign or repeated `deallocate`, which the code does not detect.
- object construction by `create`; addresses of the arena are relative to its buffer.
- the arena's destructor and the pool's, and `size_t` overflow in the pool's compile-time sizes.

Flat map and others:
- `SoulFlatMap::sort` with another order, which breaks the search by design; filters and snapshots.
- capacity of the underlying vector: `reserve` changes no entry.
- the remaining containers, the event scheduler, timers, JSON, files, logging and smart pointers: thin layers over the standard library or without a deeper claim.
