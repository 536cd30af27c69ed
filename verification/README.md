# Verified models of the agent's hand-written state machines

This project models, in Dafny, the parts of the agent whose correctness is not visible from any single
branch, and proves what they promise over every input, every interleaving and every run.
`dafny verify dfyconfig.toml` checks all of it.

Each part has two forms. A specification on values (a `Step` function, or a recursive function for a
loop) is what the theorems are about. Where the program changes an object in place, a class with the
same fields carries methods that do the same, each proved equal to the specification on the whole state,
not only on the fields it happens to touch.

| file | what it models |
|---|---|
| LaneState, LaneProtocol, LaneEffects, LaneObjects | the per-chat send lane: ticket queue, priority of passive sends, cancellation, and the map that drops idle lane objects |
| Inbox, InboxEffects, MessageBus | the durable inbox: reservation, paged recovery, owners, delete-only retries |
| Outbound, Delivery, Receipts | the outbound dispatch, its receipts, and the path from a message to the deletion of its row |
| TurnPayments, LaneTraffic | which passive turns are paid, and bus, worker and dispatcher running together with a chat's lane |
| SessionLanes | the worker's per-session queues and tasks |
| Lifecycle, LifecycleGrammar, LifecycleWriter | the lifecycle pipe between gateway and supervisor: an incremental reader, the frame grammar it accepts, and the writer at the other end |
| Restart, RestartFate | the restart coordinator, and what becomes of a request |
| Recurrence, Scheduler, SchedulerEffects, SchedulerOwner | recurring jobs, the maps and runs of the scheduler, and its methods |
| PendingMemory, MarkerSearch | the crash-safe pending memory and the chunked marker search |
| ChannelSwap, ChannelEndings, SwapOrder, ChannelHosting, Endpoints | swapping a plugin's channels, alone and together with its services, with undo |
| ChatStream, ChatOutcomes, ChatRuntime | the nested retry loops of a streamed chat request |
| RankFusion, InjectionBudget | reciprocal-rank fusion and the character budget of the injected block |

## How concurrency is modelled

The code between two `await`s is one atomic event, and a run is any sequence of enabled events. A task
may be cancelled at every `await`, but not a second time inside the `finally` that is releasing a lane.
Asyncio conditions and locks are never contended inside a stretch without `await`, so entering a
critical section is atomic; a woken waiter re-enters its section as an event of its own, at any time.

## Where the code does not do what one would expect

Each of these is proved, with the exact condition under which the expectation holds.

- The lifecycle writer cuts a reload detail to 1024 characters while the reader rejects more than 2048
  UTF-8 bytes, so the writer can send a frame that voids a later commit
  (`LifecycleWriter.WriterCanBeRejected`). `WriterAccepted`: accepted if and only if each cut detail has at
  most 2048 bytes. The other way round, a report that the reader would take can be too long for the writer,
  which escapes it, and is then never written (`ReportIsLost`).
- A channel whose stop is not confirmed is dropped from the running channels and is not among those
  restored, so such a swap is not all or nothing (`ChannelEndings.StubbornGoesDown`).
  `ChannelEndings.RestoredIffUndone`: a failed swap leaves the host as it was whenever the world confirms
  every old stop and then every clean-up and restart call that counts; if some old channel is really
  replaced, in no other case. This covers the endings in which the undo itself fails.
  `EndingByWorld` gives the condition of each ending call by call.
- A turn can stay unpaid for the rest of the process, and then no non-passive send to that chat ever begins
  again. It takes a message that the worker gives up, such as one whose turn cannot be started: the lane loop
  logs the error and goes on, and only success pays (`TurnPayments.GivenUpIsNeverPaid`, a run). A message owes
  its turn if and only if it is queued, in the worker's hands, or its delete is being retried, or it was
  forsaken: given up, or its delete failed for good or its retries were stopped (`OwesIff`,
  `UnpaidIffForsaken`); one without a row only if it was given up (`PlainUnpaidIffGivenUp`).
  `LaneTraffic.ForsakenSilences` is the consequence for the chat.
- The passive turns of a chat are counted, not named, so completing a message without an owner twice takes
  another message's turn (`Inbox.SecondCompletionOverpays`). `CompletionTakes` gives the exact condition,
  and `TurnPayments.TurnsPaidOnce` shows that the worker never does it: it pays a turn at most once.
- A lane task is cancelled only by the worker's shutdown, which empties both dictionaries afterwards; so
  outside a shutdown every registered queue has its task (`SessionLanes.NoLostWakeup`), and between the
  cancellation and the emptying it need not (`KillStrands`).
- A job can be executed twice at one nominal boundary: if its run ends without a saved successor, because
  the save failed, the run was cancelled or the service is stopping. `Scheduler.StaysIffSlips` says that the
  job then, and only then, still waits at that boundary, and `RepeatNeedsSlip` that over every run, reloads
  included, nothing else makes a boundary repeat.
- Python's booleans are integers, so a ready frame with the process id `true` is accepted, as 1
  (`LifecycleGrammar.BooleansAreNumbers`).
- Asked for the next time after a moment before the pending one, an interval job skips the pending one.
  `Recurrence.AdvanceIsFirst`: the answer is the first later grid point if and only if the job was due; both
  callers ask only then.
- A failed swap of channels together with services leaves both as they were if and only if the whole undo
  works, provided an old channel is really replaced or none is concerned
  (`Endpoints.EndpointsRestoredIffUndone`).
- The pending files hold each uncommitted fact once, in order, if and only if no rollback was cut between
  its write and its unlink since the last completed commit (`PendingMemory.OnceAndInOrder`); after such a
  cut some fact is there twice (`TornDuplicates`).
- A vector hit of rank 62 only ties the first keyword hit; the exact threshold is `r < k + 2q`
  (`RankFusion.VectorAgainstKeyword`).

## Model

| member | source | states |
|---|---|---|
| `LaneState.SkipSpec` | bus/queue.py:181-184 | skipping moves only `serving` and `cancelled`, passes over cancelled tickets only, forgets exactly those, and stops at a ticket that is not cancelled |
| `LaneState.ChatLaneState.SkipCancelled` | bus/queue.py:181-184 | the skipping loop in place: the state becomes exactly the skipped one |
| `LaneState.ChatLane.AcquireState` | bus/queue.py:150-161 | a lookup creates a state object only when the key has none, and counts one more user on the mapped object |
| `LaneState.ChatLane.ReleaseState` | bus/queue.py:163-179 | one user less; the key is dropped exactly when nothing is owed on that object and the map still points to it |
| `LaneState.ChatLane.MarkPassivePending` | bus/queue.py:186-193 | one more owed turn on this key, other keys untouched |
| `LaneState.ChatLane.MarkPassiveDone` | bus/queue.py:195-203 | one owed turn less, if there is one; other keys untouched |
| `LaneState.ChatLane.MarkPassiveSendPending` | bus/queue.py:205-212 | one more registered passive send on this key |
| `LaneState.ChatLane.MarkPassiveSendDone` | bus/queue.py:214-224 | one registered passive send less, if there is one |
| `LaneState.ChatLane.BeginPassive` | bus/queue.py:226-253 | the critical section of a passive send: rejected when its registration is gone, started when nothing is sending |
| `LaneState.ChatLane.BeginNonPassive` | bus/queue.py:267-292 | a non-passive send takes the next ticket and starts only when unblocked with its ticket served |
| `LaneState.ChatLane.EndPassive` | bus/queue.py:254-265 | the releasing section of a passive send: registration paid, `sending` cleared if it was the sender |
| `LaneState.ChatLane.EndNonPassive` | bus/queue.py:293-304 | the releasing section: a sender's ticket is served, a waiter's is cancelled and skipped |
| `LaneProtocol.StepKeepsInv` | bus/queue.py:186-304 | every interleaving of marks, sends, wake-ups and cancellations keeps: counters equal to the messages owing a turn, the registered sends and the tasks; one sender and `sending` exactly then, tickets either cancelled or held once, no unnotified waiter that could go |
| `LaneProtocol.RunKeepsInv` | bus/queue.py:186-304 | the same over whole runs of any length |
| `LaneProtocol.BeginsOnlyWhenFree` | bus/queue.py:226-292 | mutual exclusion at the moment a send begins; a non-passive one begins only with no passive turn owed and no passive send queued, waiting or running |
| `LaneProtocol.SomeoneMayGo` | bus/queue.py:181-184 | no lost wake-up: on a free lane every waiting passive send is notified and begins when woken, whatever is owed or queued; with nothing owed or queued any waiter implies such a waiter |
| `LaneProtocol.ServedInOrder` | bus/queue.py:267-304 | non-passive sends begin in strictly increasing ticket order over every run |
| `LaneEffects.PassiveBeginsIff` | bus/queue.py:226-253 | a passive send begins, on its call or when woken, if and only if nobody sends |
| `LaneEffects.NonPassiveBeginsIff` | bus/queue.py:267-292 | a non-passive send begins if and only if nobody sends, nothing passive is owed, queued or waiting, and no smaller ticket is held; otherwise it waits with its ticket |
| `LaneEffects.ServedAreBegun` | bus/queue.py:267-292 | the tickets served in a run are those of the non-passive sends that begin in it |
| `LaneEffects.Departs` | bus/queue.py:254-304 | a send that ends, or a waiter that is cancelled, is gone, everybody else keeps their place and is notified, and after a send the lane is free |
| `LaneTraffic.LaneKeepsUp` | bus/queue.py:431-787 | bus, worker, dispatcher and other senders on one chat's lane, in any interleaving: the lane refuses no call, so no turn is paid that is not owed and no queued send finds its registration gone; its two counters are the owing messages and the sends queued, in flight or direct |
| `LaneTraffic.LaneCountsBusTurns` | bus/queue.py:431-787 | every run of bus, worker and dispatcher is such a run, and the lane's counters are the bus's at every moment |
| `LaneTraffic.NeverInterrupts` | bus/queue.py:267-304 | a non-passive send to a chat begins only while no message of that chat is queued or worked on, no delete is outstanding, and no reply is queued, in flight or waiting |
| `LaneTraffic.ForsakenStarvesChat` | bus/queue.py:267-292 | once a message of the chat is forsaken, no non-passive send to it begins in any continuation |
| `LaneTraffic.ForsakenSilences` | bootstrap/passive_worker.py:113-117 | the same for every run of bus and worker that forsakes a message, however it goes on and whoever else sends |
| `LaneObjects.NextShifts` | bus/queue.py:267-304 | the lane's behaviour depends on tickets only up to a common shift |
| `LaneObjects.SelfCleaningRefines` | bus/queue.py:150-179 | every run of the self-cleaning lane map is, up to a shift of tickets, a run of a lane that is never dropped |
| `LaneObjects.LaneMapPromises` | bus/queue.py:150-179 | after any run an object is mapped exactly while something is outstanding, every suspended send holds that very object, its counters are exact and at most one send runs |
| `MessageBus.DurableInbox.Reserve` | session/store.py:757-873 | a row with this id, or else with this key, is returned if its fields agree, and is an identity conflict otherwise, as are two different rows for id and key; with neither, row and key are inserted |
| `MessageBus.DurableInbox.PublishInbound` | bus/queue.py:453-497 | a live message whose key has a row is not queued, and raises exactly if that row is another message (the step PublishKnown); otherwise it is reserved under the lock (the step Publish) |
| `MessageBus.DurableInbox.PublishPlainMessage` | bus/queue.py:431-446 | a message of another channel is marked and queued in one stretch: the step PublishPlain |
| `MessageBus.DurableInbox.ReadPage` | bus/queue.py:366-378 | lock, page, and the owned ids gathered by a loop: the step RecoverPage |
| `MessageBus.DurableInbox.RecoverNextRow` | bus/queue.py:379-397 | one row of the page: passed over when claimed or owned, the page given up when it does not decode or its reservation conflicts, otherwise claimed: the steps RecoverRow and MalformedRow |
| `MessageBus.DurableInbox.QueueAndAccept` | bus/queue.py:491-497 | mark, put and registration of the owner in one stretch: the step Enqueue |
| `MessageBus.DurableInbox.AbortRegistration` | bus/queue.py:391-397 | cancelled or failed at the lane mark, the claim given back: the step Abort |
| `MessageBus.DurableInbox.CompleteInbound` | bus/queue.py:503-532 | a message without an owner pays its turn; an owned one deletes its row and then pays: the step Complete |
| `MessageBus.DurableInbox.RetryInboundCleanup` | bus/queue.py:564-613 | the delete-only retry, paying after the confirmed delete: the step Retry |
| `MessageBus.DurableInbox.FinalizeInboundOwner` | bus/queue.py:615-630 | the owner is released under the lock: the step Finalize; the page read after it is ReadPage |
| `Inbox.RunKeepsInv` | bus/queue.py:358-630 | the inbox invariant over every interleaving of publishes, paged recovery, completions, failed deletes and retries |
| `Inbox.OneOwnerPerHandoff` | bus/queue.py:358-397 | at most one accepted owner per handoff, queued at most once per process, a queued and stored row is owned, claimed ids are owned ids whenever nobody is registering |
| `Inbox.MovesOneTurn` | bus/queue.py:431-531 | each event marks or pays the turn of at most one message, marks only what owes nothing and pays only what owes |
| `Inbox.TurnsAreExact` | bus/queue.py:186-203 | a chat's count is at every moment the number of its owned messages with a row still stored plus its queued messages without a row, if no message without an owner is completed twice |
| `Inbox.CompletionTakes` | bus/queue.py:503-508 | completing a message without an owner keeps the counts exact if and only if it owes a turn or its chat has none to lose |
| `Inbox.SecondCompletionOverpays` | bus/queue.py:503-508 | a caller that completes a message twice takes the turn of another: a run in which it does |
| `Inbox.OnlyOwnersDelete` | bus/queue.py:503-613 | a row leaves the store only through its own accepted owner's confirmed delete |
| `Inbox.ReleasedAfterDeletion` | bus/queue.py:615-630 | an owner is released only after its row is gone |
| `InboxEffects.RecoversUnowned` | bus/queue.py:379-394 | the next row of a page is claimed and goes on to the lane mark if and only if it was neither claimed nor owned when the page was read |
| `InboxEffects.PageTakesAll` | bus/queue.py:358-397 | a recovery that reaches the end of its page has queued exactly the rows of it that nobody owned at the read, whatever happened meanwhile |
| `InboxEffects.LockNeverLost` | bus/queue.py:372-497 | over every run the durable lock is held exactly by a publish or recovery under way, which can always go on |
| `InboxEffects.EndsReleaseLock` | bus/queue.py:391-397 | a registration given up and a page that ends free the lock and give back the claim |
| `InboxEffects.QueueInOrder` | bus/queue.py:491-501 | over every run the inbound queue is first in, first out |
| `InboxEffects.RetryLeadsToDeletion` | bus/queue.py:564-630 | the first retry the store answers deletes the row, pays the turn and lets the owner go |
| `InboxEffects.FailedDeleteIsRetried` | bus/queue.py:519-530 | a delete failing with an operating system error keeps row and owner and starts the retries |
| `InboxEffects.RefusesIffFailed` | bus/queue.py:534-551 | completions and plain publishes are refused if and only if some delete has failed for good |
| `InboxEffects.GivenUpStays` | bus/queue.py:564-648 | retries that were cancelled or failed for good are never taken up again: the row stays stored and owned in every continuation |
| `InboxEffects.FinalizerEnds` | bus/queue.py:615-630 | a finalizer ends once and lets its own owner and claim go, or nothing when it is cancelled before |
| `Outbound.SendOutbound` | bus/queue.py:789-874 | which subscribers are called with the original or the fallback, in which order, and the receipt |
| `Outbound.DeliveredByCalls` | bus/queue.py:789-874 | a true receipt if and only if there is a subscriber and each has taken the original message; a fallback goes only to one that failed it twice and only without a receipt |
| `Outbound.EachIsAsked` | bus/queue.py:818-873 | each subscriber gets the original until it takes it, at most twice, and then, if nobody awaits the receipt, the fallback: exactly these calls |
| `Outbound.InSubscriptionOrder` | bus/queue.py:815-873 | one subscriber after the other |
| `Delivery.DeletedOnlyAfterDelivery` | bootstrap/passive_worker.py:220-319 | in every run a deleted row, or one whose delete is being retried, has an earlier dispatch of that message's own terminal in which every subscriber took the original and no fallback was sent |
| `TurnPayments.TurnsPaidOnce` | bootstrap/passive_worker.py:213-245 | over every run a message put on the queue has paid its own turn exactly once or still owes it, and no other has; a chat's count is the number of those that owe |
| `TurnPayments.OwesIff` | bootstrap/passive_worker.py:91-129 | a message owes its turn if and only if it is queued, with the worker, its delete is being retried, or it was forsaken earlier in the run |
| `TurnPayments.UnpaidIffForsaken` | bootstrap/passive_worker.py:113-117 | after the worker is done with a message and outside retries it owes its turn if and only if it was given up, its delete failed for good, or its retries were stopped |
| `TurnPayments.ForsakenStaysUnpaid` | bus/queue.py:503-613 | each act leaves unpaid exactly what was unpaid before and what it forsakes |
| `TurnPayments.PlainUnpaidIffGivenUp` | bootstrap/passive_worker.py:213-245 | a message without a row is owed after the worker is done with it if and only if it was given up |
| `TurnPayments.GivenUpIsNeverPaid` | bootstrap/passive_worker.py:113-117 | a run that ends with an owed turn, an empty queue and nobody to pay it |
| `Delivery.StoredRowsStayOwned` | bootstrap/passive_worker.py:488-494 | no accepted row of a live process is both stored and unowned, whatever is retained, fails or is shut down |
| `Delivery.ReceiptLeadsToDeletion` | bus/queue.py:503-532 | after a true receipt and a store that answers, completion deletes the row and releases owner and claim |
| `Receipts.DispatchAnswers` | bus/queue.py:767-781 | a dispatch sets the receipt it was awaited for, to true if and only if every subscriber took the original |
| `Receipts.VerdictIff` | bus/queue.py:684-787 | over every run a receipt is unanswered if and only if its terminal is queued or being sent, true if and only if a dispatch of that very terminal delivered it, false if and only if some act answered false: a failed dispatch, a stopping or stopped dispatcher, a drained queue |
| `Receipts.DeliveryLeadsToDeletion` | bootstrap/passive_worker.py:247-319 | after a dispatch that every subscriber took, the message can be completed, and completing it deletes its row |
| `Receipts.FailureSendsAgain` | bootstrap/passive_worker.py:247-319 | after any other dispatch it cannot be completed, and its terminal can be sent once more with the row untouched |
| `Receipts.NeverStuck` | bootstrap/passive_worker.py:213-319 | whatever state a message is in with the worker, its next step is there |
| `Receipts.OutboxInOrder` | bus/queue.py:651-682 | over every run the outbound queue is first in, first out |
| `Receipts.DispatchTakesFirst` | bus/queue.py:755-766 | the dispatcher takes and sends the first item |
| `Receipts.RunsAgain` | bus/queue.py:741-756 | once started again the dispatcher takes what is queued |
| `Receipts.StoppedIff` | bus/queue.py:694-787 | a terminal is refused at once if and only if the dispatcher has stopped and not started again |
| `SessionLanes.PassiveLanes.Enqueue` | bootstrap/passive_worker.py:80-89 | the step Arrive on the two dictionaries |
| `SessionLanes.PassiveLanes.TakeNext` | bootstrap/passive_worker.py:97-99 | the step Get: the head of the queue is taken |
| `SessionLanes.PassiveLanes.FinishCurrent` | bootstrap/passive_worker.py:124-129 | the step Settle: go on, or leave both dictionaries |
| `SessionLanes.PassiveLanes.Shutdown` | bootstrap/passive_worker.py:63-78 | every lane task is cancelled, then both dictionaries are emptied |
| `SessionLanes.LanePromises` | bootstrap/passive_worker.py:80-129 | per session, since the worker started: begun in arrival order, nothing lost or doubled, at most one live task, and a registered queue has one exactly unless that task was cancelled and nothing arrived since |
| `SessionLanes.NoLostWakeup` | bootstrap/passive_worker.py:80-129 | outside a shutdown, also after earlier ones, every registered queue has a live task that can take its next step |
| `SessionLanes.RetainedBlocks` | bootstrap/passive_worker.py:91-129 | while a task holds a retained message nothing of its session starts and what arrives stays queued in order |
| `SessionLanes.TakesHead` | bootstrap/passive_worker.py:97-103 | the task takes the head of its queue and has it in hand |
| `SessionLanes.GoesOnOrLeaves` | bootstrap/passive_worker.py:124-129 | after a message the task goes on if its queue has more, otherwise it ends and its session leaves both dictionaries |
| `SessionLanes.StartsAgain` | bootstrap/passive_worker.py:53-78 | after a shutdown the worker can start from nothing |
| `SessionLanes.KillStrands` | bootstrap/passive_worker.py:63-78 | during a shutdown, between the cancellations and the emptying, a registered queue with a message has no task, and the message goes with its queue |
| `Lifecycle.LifecycleState.Feed` | agent/supervisor.py:109-126 | after any chunk the whole view equals that of the concatenated bytes read at once |
| `Lifecycle.LifecycleState.Finish` | agent/supervisor.py:121-126 | the checks on the unfinished rest |
| `Lifecycle.ReadAll` | agent/supervisor.py:109-149 | any chunking followed by end of file gives readiness, pid, stage, elapsed time, settings results, commit validity and error of the uncut stream |
| `Lifecycle.TooLongIsFinal` | agent/supervisor.py:117-126 | a stream rejected for the 4096-byte limit stays exactly so, however it continues |
| `LifecycleGrammar.FramesAccepted` | agent/supervisor.py:128-199 | the frame automaton and the declarative grammar agree on every list of frames |
| `LifecycleGrammar.StreamAccepted` | agent/supervisor.py:109-199 | no error if and only if the frames form stage* (ready settings* (commit settings*)?)? with non-decreasing times, own boot id and nonce; the view is then what they say; the commit is valid exactly for an acceptable stream with a commit |
| `LifecycleGrammar.ErrorIsPermanent` | agent/supervisor.py:109-149 | an error is permanent and clears the commit for good |
| `LifecycleGrammar.ErrorNamesCause` | agent/supervisor.py:128-199 | the error reported names its cause: size, JSON, identity, or the kind of frame that was out of order |
| `LifecycleGrammar.FirstErrorStands` | agent/supervisor.py:109-131 | the first error stays, unless a later frame is over-long, and nothing else is taken in |
| `LifecycleGrammar.EndNamesCause` | agent/supervisor.py:121-126 | an unfinished frame may not be over-long, and at the end of the file there may be none |
| `Lifecycle.ShortestForm` | agent/supervisor.py:192-196 | a character counts as the least number of UTF-8 bytes that can name it |
| `LifecycleGrammar.BooleansAreNumbers` | agent/supervisor.py:166-172 | a process id `true` is accepted as 1, `false` is not |
| `LifecycleWriter.SupervisorCommitChannel.Stage` | agent/restart.py:96-109 | writes exactly the stage frame, or raises and writes nothing |
| `LifecycleWriter.SupervisorCommitChannel.Ready` | agent/restart.py:111-122 | writes exactly the ready frame, or raises and writes nothing |
| `LifecycleWriter.SupervisorCommitChannel.SettingsReloaded` | agent/restart.py:84-94 | the detail is cut to 1024 characters before framing |
| `LifecycleWriter.SupervisorCommitChannel.Commit` | agent/restart.py:71-76 | only for its own boot id |
| `LifecycleWriter.SupervisorCommitChannel.CommitSettings` | agent/restart.py:78-82 | only for ids with the settings prefix |
| `LifecycleWriter.SupervisorCommitChannel.WriteFrame` | agent/restart.py:134-140 | one whole frame and a newline, or nothing above 4096 bytes |
| `LifecycleWriter.WritesIff` | agent/restart.py:71-142 | a call writes its frame if and only if it is in order and the frame with its newline has at most 4096 bytes |
| `LifecycleWriter.KeepsBeginning` | agent/restart.py:84-94 | a reload detail keeps its first 1024 characters |
| `LifecycleWriter.ReportIsLost` | agent/restart.py:84-142 | a failed reload's report that the supervisor would take and that is never written |
| `LifecycleWriter.WriterAccepted` | agent/restart.py:71-140 | every writer run in protocol order is accepted if and only if each reload detail, cut to 1024 characters, has at most 2048 UTF-8 bytes; the reader then knows just what was said |
| `LifecycleWriter.WriterCanBeRejected` | agent/restart.py:84-94 | the detail of a failed reload that fits the writer's limit and is rejected by the reader |
| `Restart.RestartCoordinator.BindAdmission` | agent/restart.py:174-185 | the first binding is kept, a second is refused |
| `Restart.RestartCoordinator.ArmRestart` | agent/restart.py:187-236 | the step Arm: every rejection, then freeze and watchdog |
| `Restart.RestartCoordinator.MarkTurnTerminal` | agent/restart.py:238-251 | the step for a turn's end |
| `Restart.RestartCoordinator.MarkDelivered` | agent/restart.py:253-262 | the step for a delivery |
| `Restart.RestartCoordinator.MarkDeliveryFailed` | agent/restart.py:264-272 | the step for a failed delivery |
| `Restart.RestartCoordinator.DeliveryWatchdog` | agent/restart.py:320-327 | the step of a live watchdog |
| `Restart.RestartCoordinator.CommitWhenReady` | agent/restart.py:283-301 | both flags, then the callback once |
| `Restart.RestartCoordinator.CancelRequest` | agent/restart.py:303-318 | the request is dropped and admission resumed |
| `Restart.AdmissionDiscipline` | agent/restart.py:187-327 | freezes and resumes alternate with matching turns, admission is frozen exactly while a request is pending, at most one commit is sent, for the pending request |
| `Restart.CommittedIsAbsorbing` | agent/restart.py:187-327 | after a commit no event changes anything |
| `Restart.WatchdogMatchesPending` | agent/restart.py:303-327 | the live watchdogs are exactly that of the waiting request, so an old one never cancels a newer request |
| `Restart.CommittedExactlyWhenBothSeen` | agent/restart.py:238-301 | a pending request is committed if and only if its own turn has both completed and been delivered since it was armed |
| `RestartFate.AcceptedIff` | agent/restart.py:187-236 | a request is accepted if and only if the gateway is supervised, none is pending, the call is complete and admission could be frozen; then admission is frozen for its turn and its watchdog runs |
| `RestartFate.AnswersOtherwise` | agent/restart.py:187-215 | the turn that has asked gets its own request again, others are rejected while one is pending, and nothing changes |
| `RestartFate.WaitingMeets` | agent/restart.py:238-327 | what each event does to a waiting request: given up and admission resumed, committed, or still waiting |
| `RestartFate.FirstDecides` | agent/restart.py:238-327 | the first event that breaks a request or refuses its commit gives it up at once and resumes admission for its turn; the first that makes it ready commits it |
| `RestartFate.PendingIff` | agent/restart.py:187-327 | over every run a request is still pending if and only if it was committed before anything ended it or nothing has: a failed or interrupted own turn, a failed delivery, its own watchdog, a refused commit |
| `RestartFate.CommitHappens` | agent/restart.py:187-301 | the plain course ends in a commit with admission frozen |
| `Recurrence.AdvanceIsFirst` | agent/scheduler.py:749-761 | the next time is the first grid point strictly after the argument if and only if the job was due by then |
| `Recurrence.Rescheduled` | agent/scheduler.py:660-700 | a finished run lands on the first grid point after max(now, boundary) + 1 microsecond, later than both |
| `Scheduler.MapsAgree` | agent/scheduler.py:553-700 | over every run from start: the runtime map is the enabled part of the persisted map, that map is what the file holds, no id runs twice at once |
| `Scheduler.NoBoundaryTwice` | agent/scheduler.py:553-700 | over every run, reloads and failed saves included, an id's executed boundaries strictly increase on one grid, except that one is repeated whose own run ended without a saved successor; early triggers included |
| `Scheduler.RepeatNeedsSlip` | agent/scheduler.py:604-621 | a tick starts a boundary a second time only after its run has ended in that way |
| `Scheduler.StaysIffSlips` | agent/scheduler.py:660-700 | after a run of the current job the job waits at the same boundary if and only if the save failed, the run was cancelled or the service is stopping; it is then due as before |
| `Scheduler.SettledWhileSaving` | agent/scheduler.py:660-700 | with working saves, no cancelled run and no shutdown no run ends without a saved successor |
| `Scheduler.NeverResurrected` | agent/scheduler.py:523-541 | a removed job stays out of file and maps, whatever runs of it still end, until it is added again |
| `Scheduler.FinishTouchesOwnJob` | agent/scheduler.py:660-700 | a run of a replaced or cancelled job changes no map; a current one changes its own entry only |
| `Scheduler.CapacityHolds` | agent/scheduler.py:499-521 | active jobs never exceed the larger of 10 and what was loaded |
| `Scheduler.RecoveryLands` | agent/scheduler.py:553-602 | an overdue interval job lands on its first boundary after now; a one-shot is kept exactly within the grace period |
| `SchedulerEffects.CancelRemoves` | agent/scheduler.py:523-529 | a cancelled job leaves the file and both maps and no other does; nothing changes for an unknown id or a failed save |
| `SchedulerEffects.CancelledStaysAway` | agent/scheduler.py:523-529 | and it stays away in every continuation until the id is added again |
| `SchedulerEffects.CancelNameRemoves` | agent/scheduler.py:531-538 | exactly the jobs of that name leave, in one save |
| `SchedulerEffects.NamedStayAway` | agent/scheduler.py:531-538 | and stay away until added again |
| `SchedulerEffects.AddPuts` | agent/scheduler.py:499-521 | an added job is in the file and, if enabled, in the runtime map, all others as before; refused only over the limit or by a failed save |
| `SchedulerEffects.EnabledExactly` | agent/scheduler.py:644-658 | the runtime map is the enabled jobs of the persisted map, the file what they are made of |
| `SchedulerEffects.LoadKeepsJobs` | agent/scheduler.py:553-602 | loading loses no stored job and invents none; each lands where recovery puts it and is in the runtime map if and only if enabled |
| `SchedulerEffects.LoadFailsIffUnsaved` | agent/scheduler.py:553-602 | loading fails, changing nothing, if and only if something had to be saved and was not |
| `SchedulerEffects.StopsUntilLoaded` | agent/scheduler.py:470-497 | the service is stopping from a stop on until it is loaded again |
| `SchedulerEffects.StartsInTime` | agent/scheduler.py:604-621 | an enabled job not running starts as soon as its time has come: an instant one at its boundary, a soft one up to the lead before it |
| `SchedulerEffects.FinishLeaves` | agent/scheduler.py:660-700 | unless it slips, a run leaves a one-shot disabled and any other job at the first boundary after now and the old one; a success counts |
| `SchedulerEffects.FinishFrees` | agent/scheduler.py:623-634 | a finished run frees its id and no other |
| `SchedulerOwner.TickFiresDue` | agent/scheduler.py:604-621 | a tick over any listing starts runs of exactly the due jobs and changes no map |
| `SchedulerOwner.SchedulerService.AddJob` | agent/scheduler.py:499-521 | the step Add; refused exactly above 10 active jobs; nothing changes unless it was saved |
| `SchedulerOwner.SchedulerService.CancelJob` | agent/scheduler.py:523-529 | the step Cancel |
| `SchedulerOwner.SchedulerService.CancelJobByName` | agent/scheduler.py:531-538 | the step CancelName: all of that name in one save |
| `SchedulerOwner.SchedulerService.LoadAndRecover` | agent/scheduler.py:553-602 | the step Load by a loop over the stored jobs; saves only when something changed |
| `SchedulerOwner.SchedulerService.Tick` | agent/scheduler.py:604-621 | the loop is the sequence of Fire steps |
| `SchedulerOwner.SchedulerService.CommitJobs` | agent/scheduler.py:644-651 | save first, then both maps |
| `SchedulerOwner.SchedulerService.FinishRun` | agent/scheduler.py:660-700 | the step Finish: reschedule, retire or leave alone |
| `SchedulerOwner.SchedulerService.StopRunning` | agent/scheduler.py:495-497 | the step Stop |
| `SchedulerOwner.CountActive` | agent/scheduler.py:504-513 | the counting loop gives the number of enabled jobs |
| `PendingMemory.MemoryStore.AppendPending` | agent/memory.py:79-85 | whole disk state: append with a trailing newline, empty input ignored |
| `PendingMemory.MemoryStore.SnapshotPending` | agent/memory.py:192-207 | whole disk state: recovery and rename, cut after any file step |
| `PendingMemory.MemoryStore.RollbackPendingSnapshot` | agent/memory.py:218-237 | whole disk state: merge, write, unlink, cut after any file step |
| `PendingMemory.MemoryStore.CommitPendingSnapshot` | agent/memory.py:209-216 | whole disk state: unlink, cut after any file step |
| `PendingMemory.MergeIsConcat` | agent/memory.py:218-237 | the text-level merge is concatenation of the facts, the snapshot's first |
| `PendingMemory.NothingLost` | agent/memory.py:192-243 | from whatever files an earlier process left, over every run with crashes between file steps: each uncommitted fact is in PENDING or the snapshot, and nothing else is |
| `PendingMemory.OnceAndInOrder` | agent/memory.py:192-243 | from such files: the two files are, to the character, the uncommitted facts once each in arrival order, if and only if no rollback was cut between write and unlink since the last completed commit |
| `PendingMemory.BlankAddsNothing` | agent/memory.py:78-81 | blank text adds nothing, by an append or as PENDING in a merge |
| `PendingMemory.PendingIsThere` | agent/memory.py:209-216 | a commit unlinks the snapshot, then makes sure PENDING is there and leaves its text alone; a start does both |
| `PendingMemory.FreesSnapshot` | agent/memory.py:209-243 | whatever ends the optimizer's work frees the snapshot for the next |
| `PendingMemory.LogIsAppends` | agent/memory.py:79-85 | the facts of a run are the trimmed non-blank texts it appended, in order |
| `PendingMemory.FoundIsSound` | agent/memory.py:36-50 | every store a process can find satisfies the invariant of the runs |
| `PendingMemory.TornDuplicates` | agent/memory.py:218-237 | from such a cut until the next completed commit some fact stands in the files twice |
| `PendingMemory.CutThenRecovered` | agent/memory.py:218-237 | the shortest such run, in which every snapshot fact is doubled |
| `PendingMemory.CommitEndsDuplicates` | agent/memory.py:209-216 | the next completed snapshot and commit end the duplication |
| `PendingMemory.OnlyCommitForgets` | agent/memory.py:209-216 | only a commit makes a fact leave the files, and only one of its own snapshot |
| `PendingMemory.MemoryStore.RenamePending` | agent/memory.py:192-207 | is called only with nothing at the snapshot path, and moves PENDING there |
| `PendingMemory.SnapshotNeverOverwrites` | agent/memory.py:192-207 | when PENDING is renamed no file is at the snapshot path, and the renamed text is the old snapshot merged with PENDING; without a rename the old snapshot is still there or merged into PENDING |
| `MarkerSearch.CarryIsEnough` | agent/memory.py:391-408 | a carry of one byte less than the marker loses no match and invents none |
| `MarkerSearch.FileContainsMarker` | agent/memory.py:391-408 | true if and only if the marker is a substring of the whole file, for every chunking and non-empty marker |
| `ChannelSwap.AllOrNothing` | bootstrap/channel_host.py:73-201 | every outcome of a swap from a state where the old channels run: replaced, or nothing but the call log differs, or exactly the channel down that would not stop; list and bindings change on success only |
| `ChannelEndings.EndingByWorld` | bootstrap/channel_host.py:73-201 | which ending an accepted swap has, if and only if a condition on the outcomes of the single starts and stops holds |
| `ChannelEndings.RestoredIffUndone` | bootstrap/channel_host.py:110-147 | a swap that fails leaves the host as it was if every old channel confirms its stop and the clean-up and restart calls succeed; if an old channel is really replaced, only then, incomplete undos included |
| `ChannelEndings.RestoredIffStopsConfirmed` | bootstrap/channel_host.py:110-122 | among the endings that report a complete undo, the running channels are the original ones if and only if the world confirms every stop |
| `ChannelEndings.StopsFailByWorld` | bootstrap/channel_host.py:110-116 | the stop phase fails if and only if one of its first calls is not confirmed |
| `ChannelEndings.StubbornGoesDown` | bootstrap/channel_host.py:110-122 | a host on which the swap fails at the stop and leaves the channel down |
| `ChannelSwap.LayoutShape` | bootstrap/channel_host.py:149-156 | the new block stands at the first old position, what was before has not moved, others keep their order, names stay distinct |
| `SwapOrder.RefusedIff` | bootstrap/channel_host.py:88-108 | a swap is refused, changing nothing, if and only if the plugin's channels are not those to be replaced, two new ones share a name, or one shares it with a channel that stays |
| `SwapOrder.StaleIsRefused` | bootstrap/channel_host.py:94-96 | after a swap the replaced generation cannot be swapped out again |
| `SwapOrder.SwapsInOrder` | bootstrap/channel_host.py:73-137 | a successful swap stops the old channels, last first, and then starts the new ones, first first, and calls nothing else |
| `SwapOrder.FailedStopInOrder` | bootstrap/channel_host.py:110-122 | after an unconfirmed stop those stopped before are started again, last stopped first, and nothing else is called |
| `ChannelSwap.StopPhaseEffect` | bootstrap/channel_host.py:110-122 | what is running after the stop phase, in each of its endings |
| `ChannelSwap.StartPhaseEffect` | bootstrap/channel_host.py:124-137 | what is running after the start phase, in each of its endings |
| `ChannelSwap.RestorePhaseEffect` | bootstrap/channel_host.py:139-147 | the restore brings back exactly the stopped ones, or leaves at most them and unstoppable new ones |
| `ChannelHosting.ChannelHost.StartChannel` | bootstrap/channel_host.py:167-183 | resources and `started` after a start and its clean-up |
| `ChannelHosting.ChannelHost.StopChannel` | bootstrap/channel_host.py:185-201 | bookkeeping dropped even when the stop fails |
| `ChannelHosting.ChannelHost.RestoreChannels` | bootstrap/channel_host.py:158-165 | goes on after errors, not after a cancellation |
| `ChannelHosting.ChannelHost.PreparePluginSwap` | bootstrap/channel_host.py:88-108 | refuses exactly another generation or clashing names; notes the old positions |
| `ChannelHosting.ChannelHost.StopPluginSwap` | bootstrap/channel_host.py:110-122 | the stop phase in place |
| `ChannelHosting.ChannelHost.StartPluginSwap` | bootstrap/channel_host.py:124-137 | the start phase in place |
| `ChannelHosting.ChannelHost.RestorePluginSwap` | bootstrap/channel_host.py:139-147 | the restore phase in place |
| `ChannelHosting.ChannelHost.CommitPluginSwap` | bootstrap/channel_host.py:149-156 | the remove and insert loops give the layout |
| `ChannelHosting.ChannelHost.SwapPluginChannels` | bootstrap/channel_host.py:73-86 | the whole swap in place |
| `Endpoints.ChannelsAllOrNothing` | bootstrap/app.py:1157-1217 | in the combined swap the channels come out as in a swap of their own |
| `Endpoints.ServicesAllOrNothing` | bootstrap/app.py:1157-1217 | services are new on success, the old ones after a rollback or a failed stop; other plugins untouched |
| `Endpoints.StaleServicesRefused` | agent/plugins/service_host.py:199-244 | services of another generation than the bound one are not swapped out, and a failing swap binds nothing |
| `Endpoints.EndpointsSwapped` | bootstrap/app.py:1157-1217 | which combined swaps succeed and which report a rollback, as conditions on the single service swaps, starts and stops |
| `Endpoints.EndpointsRestoredIffUndone` | bootstrap/app.py:1157-1217 | a combined swap that fails reports a rollback, and leaves channels and services as they were, if and only if the whole undo works; the only-if for what is left holds if an old channel is really replaced or no channel is concerned |
| `Endpoints.SwapPluginEndpoints` | bootstrap/app.py:1157-1217 | the method with its switched flag and compensation does exactly that |
| `ChatStream.NeverReplaysFromStart` | agent/provider.py:541-678 | over all retries first come all requests, at most (max + 1) squared, then only deltas of the last request's stream; an answer is that stream's |
| `ChatStream.NeverReplays` | agent/provider.py:541-678 | the same from any stream attempt on |
| `ChatStream.BudgetCanBeSpent` | agent/provider.py:541-678 | the bound is reached for every retry limit |
| `ChatStream.CreateAsks` | agent/provider.py:869-969 | the inner loop makes between 1 and max + 1 consecutive requests, and an opened stream belongs to the last |
| `ChatOutcomes.AsksAgainIff` | agent/provider.py:869-1020 | the request loop asks again after exactly the transient refusals while requests are left and the pause is not interrupted; otherwise the last outcome decides which error the caller gets |
| `ChatOutcomes.TriesAgain` | agent/provider.py:541-678 | a transient failure before anything was seen is followed by another attempt and never surfaces while attempts are left |
| `ChatOutcomes.OtherwiseEnds` | agent/provider.py:541-678 | what the caller gets from the last attempt, in each of its endings |
| `ChatOutcomes.PassedToFirstRefusal` | agent/provider.py:680-829 | the callback gets the deltas up to the first it refuses, that one included |
| `ChatOutcomes.ShownUntilTools` | agent/provider.py:780-829 | text is shown up to the first chunk with a tool fragment, whose own reasoning is still shown and whose text is not |
| `ChatStream.ShownIsPrefix` | agent/provider.py:680-829 | text and reasoning shown are prefixes of what the stream sent; a complete answer without tool calls has been shown in full |
| `ChatStream.JoinedInOrder` | agent/provider.py:810-822 | an index's fragments are joined in order, however they are interleaved and cut into chunks |
| `ChatStream.PartsStayApart` | agent/provider.py:810-822 | id, name and arguments of a slot are those of its index's fragments, each joined in arrival order |
| `ChatStream.OneFragment` | agent/provider.py:810-822 | what one fragment contributes to its own index and to any other |
| `ChatStream.OneCallPerIndex` | agent/provider.py:833-843 | one call for each index that occurred, in increasing order; its id, name and arguments are those of that index's fragments, no arguments standing as {} |
| `ChatRuntime.ChatCompletionsRuntime.CreateWithRetry` | agent/provider.py:869-969 | the request loop: trace and outcome |
| `ChatRuntime.ChatCompletionsRuntime.ConsumeChatStream` | agent/provider.py:680-867 | the reading loop, closing and assembly: what is shown and how it ends |
| `ChatRuntime.ChatCompletionsRuntime.ChatStreaming` | agent/provider.py:541-678 | the outer loop: whole trace and result |
| `ChatRuntime.AddFragment` | agent/provider.py:810-822 | the fragment's id, name and arguments are each added to that part of its slot, which holds the join of its fragments so far |
| `ChatRuntime.BuildCalls` | agent/provider.py:833-843 | the loop over the sorted slots gives the calls |
| `RankFusion.TopOfRanking` | memory2/retriever.py:513-565 | the result is the first min(top_n, ids) of the strict order: distinct ids with their own item and fused score |
| `RankFusion.ItemComesFrom` | memory2/retriever.py:537-549 | an id is represented by its last vector hit, unchanged, also if the keyword lane has it; otherwise by its last keyword hit, whose keyword score stands in for a missing score |
| `RankFusion.RankedIff` | memory2/retriever.py:513-549 | a ranking if and only if every vector hit has a score, every hit an id and every keyword hit a score or a keyword score; otherwise the first of these that fails is the error |
| `RankFusion.ResultFalls` | memory2/retriever.py:559-565 | higher fused score first, then the higher own score, then the smaller id |
| `RankFusion.LeftOutIsLater` | memory2/retriever.py:559-565 | every id left out comes after every item of the result |
| `RankFusion.OrderIndependent` | memory2/retriever.py:551-559 | the order in which the id set is walked makes no difference |
| `RankFusion.AheadStaysAhead` | memory2/retriever.py:551-559 | an id ahead in one lane and not behind in the other precedes in every result |
| `RankFusion.VectorAgainstKeyword` | memory2/retriever.py:551-556 | vector rank r outscores keyword rank q if and only if r < k + 2q, and ties at equality |
| `RankFusion.VectorBeatsKeywordOnly` | memory2/retriever.py:513-565 | vector ranks up to 61 precede every keyword-only hit; rank 62 ties the first |
| `RankFusion.SortDownIsStable` | memory2/retriever.py:523-529 | the vector lane's sort is descending and keeps the hits of each score, in order |
| `RankFusion.RrfMerge` | memory2/retriever.py:513-565 | the loops over dictionaries and lists compute the merge, error cases included |
| `RankFusion.RememberVectorHits` | memory2/retriever.py:445-454 | one hit is kept per id; raises only for a missing id, or for two hits of one id of which one has no score |
| `RankFusion.BestIsFirstMaximum` | memory2/retriever.py:445-454 | the kept hit is the first of the best-scoring ones |
| `InjectionBudget.ApplyCharBudget` | memory2/retriever.py:406-430 | the loop with its running total: text, ids, and length at most the budget or a longer forced section |
| `InjectionBudget.InjectedBlock` | memory2/retriever.py:406-430 | text within the budget or the forced section alone; ids are distinct and exactly those of the included sections |
| `InjectionBudget.BlankLinesBetween` | memory2/retriever.py:430-430 | a blank line between any two sections and nothing around them |
| `InjectionBudget.UniqueInOrder` | memory2/retriever.py:426-429 | ids stand in the order of their first occurrence |
| `InjectionBudget.LeftOutDidNotFit` | memory2/retriever.py:419-424 | a section is included if and only if it fitted after the ones kept before it, or is the forced first one |

## Left out

What the model does not capture, by part.

- Logging, milestones, telemetry, span ids and message texts: no effect on the modelled state.
- Real asyncio: scheduling is any interleaving of atomic stretches; timers and back-off delays are events or oracle answers, not durations.
- Lane: the `RuntimeError` for an unbalanced counter is a rejected call; the text of the error is left out.
- Durable inbox: the SQLite store is a set of rows whose delete succeeds, fails with an operating system error or fails fatally; a live publish carries no preset handoff id, so publishing again an object whose id was filled in by a dedupe hit is not modelled; memory ids are never reused.
- Durable inbox: whether a stored row agrees with a message field by field is an arbitrary answer; a reservation with an empty field and a lost insert are left out; a deduplication key is an arbitrary string.
- Delivery: what a turn computes, the session admission ids (`_release_admission_once`) and the retry loops of `_admit_message` are left out; a terminal is one value per message, sent again unchanged on redelivery.
- Delivery: here a shutdown of the worker appears only as messages given up, a stopping dispatcher and a draining queue; what it does to the lanes is in SessionLanes, and its result tasks are left out.
- Lifecycle: JSON, UTF-8 decoding, `str.strip` and the text of a nonce are uninterpreted functions; the `TypeError` of `compare_digest` on non-ASCII text, short writes of the pipe and the consumer that pops settings results between feeds are left out.
- LifecycleWriter.WriterAccepted: assumes that the reader's decoder inverts the writer's encoder, that an encoded frame holds no raw newline, and that stripping twice is stripping once.
- Restart: request ids are numbers that are never reused; reasons are left out.
- Scheduler: the cron library is any function whose result is strictly later than its argument; the latency percentile is any number; time zones and time parsing are left out.
- Scheduler: an added job is always a new object, and the write-back to the stale job object after a reschedule, which no map refers to any more, is left out.
- Scheduler: `load_and_recover` is modelled while no run is in flight, which is when `run` calls it.
- Scheduler: shutdown cancels runs one by one as finishing runs with the cancelled flag.
- PendingMemory: one optimizer at a time; file content is text, so newline translation and encoding errors are left out; the marker stripping of the returned snapshot text and `append_pending_once` with its index are left out.
- PendingMemory: files left by an earlier process are taken to be as append writes them, blocks that end in one newline, and each block is a fact of its own.
- PendingMemory: an append is one write, atomic with respect to crashes.
- ChannelSwap: whether a start or stop succeeds, fails or is cancelled is an arbitrary outcome of the n-th call; an error while closing a channel's registrations counts as a failed stop; exceptions that are neither `Exception` nor `CancelledError` during a clean-up stop are left out.
- ChannelSwap.AllOrNothing: the resource map is the set of channels that have a record; that a restored channel has a fresh record is not stated.
- Endpoints: a service swap is all or nothing in its bindings, which is what its code assigns last; the running service processes are not part of this model.
- ChatStream: provider strategies' post-processing of the final text, usage figures and the finish reason are left out; an answer's content and reasoning are the raw joined texts before stripping.
- ChatStream: error classification is given by flags of the error; decoding of a call's argument text is left out.
- RankFusion: scores are reals, so rounding of fused scores is left out; the order in which a set of ids is walked is an arbitrary parameter.
- RankFusion: library sorts are insertion sorts proved stable or strictly ordered.
- InjectionBudget: how sections are selected and formatted is left out: plumbing.
- Configuration, dashboard and chat APIs, prompts, embedding and model clients, `_append_once_with_index` and `_tail_contains_marker`, whose guarantees need side conditions on marker text and file size, and `proactive_v2/energy.py`, which is a formula over real exponentials.
