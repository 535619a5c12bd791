# Scanner driver, bridge and workflow policy: a verified model

This project models, in Dafny 4.11, the parts of the film-scanner repository whose correctness
is hardest to see by reading one function, and proves what they promise. `dafny verify
dfyconfig.toml` checks everything.

**Roll batch ownership** (`RollCore`, `RollProtocol`, `RollSafety`, `RollTheorems`,
`RollOutcomes`, `RollCalls`, `RollObjects`). Client threads, lazily consumed batch iterators and
`Roll.close` share one scanner through a device I/O lock, a roll reservation, a batch lock and a
weak reference. Every `with <condition>:` block is one atomic step; any number of threads
interleave. The theorems speak about every run. `RollObjects` has the classes with their own
fields: their critical sections are proved equal to the steps, and their whole calls
(`__next__`, the iterator's `close`, `Roll.close`) say what becomes of every lock; `RollCalls`
shows that these calls are runs of the protocol. `RollOutcomes` says exactly when each call is
granted, and that a stop, a fault and a closed iterator mean over a whole run what they promise.
`HeldToken` follows the single-use capture child through preview, borrowing calls, batches,
release and closing; `HeldOutcomes` says how and at whose request each child ends, and
`HeldLoss` exactly when one is lost. `BatchPipeline` is the batch worker, the one-place queue
and the consuming generator with its abandonment drain.

**Bridge session** (`BridgeCore`, `BridgeProtocol`, `BridgeSafety`, `BridgeTheorems`,
`BridgeClaims`, `BridgeObjects`). One dispatch thread and its worker threads, the lane lock, the
gate and the event stream, on the shutdown and end-of-input paths too. `BridgeClaims` says on
the history of a session alone which requests may move the film. `SlotAccounting` is the
bookkeeping behind a failing scan's report, `ProcessFence` the lock that outlives a crashed
bridge in its surviving workers, and `FenceHistory` says which of them still hold it. `BridgeObjects` has the service with its fields, from single
statements to whole operations, each of which is a run of the protocol.

**Canonical YAML subset** (`YamlText`, `YamlComments`, `YamlScalars`, `YamlWords`,
`YamlQuoting`, `YamlEscapes`, `YamlFlow`, `YamlLines`, `YamlBodies`, `YamlParser`, `YamlIndent`,
`YamlGrammar`, `YamlPrinter`, `YamlRoundTrip`, `YamlCanonical`, `YamlWorkflow`, `YamlPublish`).
The quote-aware lexer and the block parser, as loops over lines proved equal to recursive
functions; a declarative grammar of blocks; a printer. The parser accepts exactly what the
grammar shows, printed trees parse back, and every tree that parses can be printed. Of each
lexical form (mapping entry, plain scalar, both kinds of quoted scalar, flow sequence, literal
body, comment) it is said which texts are read, as what, and that no others are. The subset is
that of sections 7.3.2, 7.4.1, 8.2.1 and 8.2.2 of YAML 1.2.2, with double-quoted scalars as in
section 7 of RFC 8259.

**Typed wire codec** (`CamelCase`, `WireCodec`, `WireMeaning`). Type hints, values and JSON as
data; the encoder that looks only at values, the decoder that follows types, and the loop that
fills keyword arguments. `WireMeaning` is a relation between values and the JSON that may stand
for them, which the decoder accepts exactly.

**Small algorithms.** `CleanupFault` is the graph of chained exceptions a device searches,
`WindowedSum` the integral image behind the reference masks, `TrimmedMean` the rail-excluded
mean. `Sublists` and `Wrappers` are shared.

Where the code and its comments part ways the code is followed. Unconfirmed ownership is kept,
except that `__next__` does not test the uncertain flag, so a further `next` can release it
(`FurtherNextReleases`), and so can a thread that was already inside on its way to a release
when a deadline made ownership unconfirmed (`DeadlineThenRelease`). There is no third way:
`ReleaserWasInside` names the releasing thread, and release without another `next` is possible
exactly while such a thread is inside (`ReleasableExactlyFromInside`). While a batch's worker
may still store the child it kept, two calls of a serial client are careless: `next` on an
iterator that has ended, and `release`, which reads and clears the held field without the lock.
Careful runs lose no held child (`HeldChildIsLinear`); from every state they can reach, a step
opens the way to a loss exactly when it is careless (`LostExactlyByCarelessCalls`), and a
`release` in flight can lose one exactly when it read None beside such a worker
(`LostExactlyAtRisk`). The process fence can be refused though nobody owns it, by an attempt
that fails after its flock (`RefusedByAFailingBridge`). The codec round-trips every well-typed
value of a well-formed type; for a class of sound fields, each of a type with more than one
value, it does so exactly when the class gives its fields distinct wire keys (`RoundTrip`,
`RoundTripNeedsDistinctKeys`).

## Model

| member | source | states |
|---|---|---|
| RollTheorems.BatchOwnsItsLocks | coolscanpy/src/coolscanpy/_roll.py:1945-1997 | in every reachable state an active batch id, the batch lock and that batch's claim on the device I/O lock exist together, and no batch has given its claim back twice |
| RollTheorems.UnlockFreesOwnClaim | coolscanpy/src/coolscanpy/_roll.py:1990-1997 | a batch that unlocks frees its own roll's batch lock and its own I/O claim, never another's |
| RollTheorems.GeneratorIsExclusive | coolscanpy/src/coolscanpy/_roll.py:192-283 | no two threads are ever inside the generator's `next` or `close` of one batch together |
| RollTheorems.OwnershipNests | coolscanpy/src/coolscanpy/_device.py:828-845 | at most one roll is open; a closed device has none; a roll that is closed or has freed its reservation has no batch and no preview; a closed iterator has given everything back |
| RollTheorems.CloseFreesOwnReservation | coolscanpy/src/coolscanpy/_device.py:728-731 | the token-less release only ever frees the reservation of the roll that is closing, once, and that roll never owns it again, so a repeated or concurrent close cannot free a newer roll's |
| RollTheorems.StopOutlivesTheBatch | coolscanpy/src/coolscanpy/_roll.py:1884-1888 | a stop requested during an active batch stays set until that batch is released |
| RollTheorems.UncertainOwnershipIsRetained | coolscanpy/src/coolscanpy/_roll.py:219-313 | from any state with unconfirmed ownership and no thread on its way to a release, both locks are kept and no thread gets on its way, whatever is closed or abandoned, until someone calls `next` on the batch |
| RollTheorems.ReleaserWasInside | coolscanpy/src/coolscanpy/_roll.py:192-313 | from any state with unconfirmed ownership: if the locks are released and nobody called `next` in between, the releasing thread was executing or closing the batch at the start and has not left since |
| RollTheorems.ReleasableExactlyFromInside | coolscanpy/src/coolscanpy/_roll.py:192-313 | unconfirmed ownership can be released without another `next` exactly when some thread is inside and on its way to a release |
| RollTheorems.DeadlineThenRelease | coolscanpy/src/coolscanpy/_roll.py:240-300 | reachable states show it: while a first thread is inside the generator's `close`, or its `next`, a second closer's deadline makes ownership unconfirmed, and the first still goes on to release it |
| RollTheorems.FurtherNextReleases | coolscanpy/src/coolscanpy/_roll.py:192-217 | the other way out: from any such state with nobody inside, an idle client that calls `next` is on its way to a release |
| RollOutcomes.OpensExactly | coolscanpy/src/coolscanpy/_device.py:707-713 | a roll is opened exactly on an open, healthy device without one; else nothing changes |
| RollOutcomes.ReservesExactly | coolscanpy/src/coolscanpy/_roll.py:1945-1969 | a batch is reserved exactly on a quiet open roll of a healthy device whose I/O nobody holds; it starts unused, with both locks taken and no stop set; else nothing changes |
| RollOutcomes.HoldsExactly | coolscanpy/src/coolscanpy/_roll.py:653-664 | a preview, a film query or an exposure solve begins exactly on a quiet open roll, whatever the device does |
| RollOutcomes.ClaimsExactly | coolscanpy/src/coolscanpy/_device.py:671-679 | and goes on to the device exactly if that is healthy and its I/O free, else leaves the roll as it was |
| RollOutcomes.DeviceCallsExactly | coolscanpy/src/coolscanpy/_device.py:828-845 | device I/O starts exactly on a healthy device with free I/O; the device closes exactly when it has no roll and no I/O |
| RollOutcomes.FaultIsFinal | coolscanpy/src/coolscanpy/_device.py:855-864 | over every run, a faulted or closed device stays so: no roll is opened, no batch reserved and no I/O begun on it any more |
| RollOutcomes.StoppedExactlyIfAsked | coolscanpy/src/coolscanpy/_roll.py:1884-1888 | over every run, a roll with an active batch is stopped exactly if `safe_stop`, an iterator's close, an abandonment or `Roll.close` has asked since that batch was reserved, so the stop of an earlier batch does not reach a later one |
| RollOutcomes.CloseIsFinal | coolscanpy/src/coolscanpy/_roll.py:192-200 | over every run, a closed iterator stays closed, and no thread is ever again inside its generator or on its way to release its locks |
| RollSafety.StepKeepsInv | coolscanpy/src/coolscanpy/_roll.py:168-322 | every action of every thread keeps the ownership invariant of threads, batches, rolls and device |
| RollCalls.CallIsARun | coolscanpy/src/coolscanpy/_roll.py:192-313 | from any state of any run a thread inside a batch reaches the end of its call by steps of its own, waits running into their deadline, and the objects are then as the sequential call computes |
| RollCalls.RollCloseIsARun | coolscanpy/src/coolscanpy/_roll.py:414-501 | from any state of any run, `Roll.close` of an idle thread reaches its end by that thread's steps, and batch, roll and device are then as the sequential call computes |
| RollCalls.CarryFinishes | coolscanpy/src/coolscanpy/_roll.py:285-313 | the stages of a definite close together free both locks, keep them with ownership unconfirmed, or find them gone, decided by the released mark, the active id and the held child |
| RollCalls.RunsAgree | coolscanpy/src/coolscanpy/_roll.py:1945-1997 | in every state of every run a batch, its roll and the device agree on who holds the batch's locks, which is what the whole calls on objects preserve |
| RollObjects.ScannerDevice.AcquireIoLock | coolscanpy/src/coolscanpy/_device.py:671-679 | takes the I/O lock exactly when the device is usable and the lock free, else changes nothing |
| RollObjects.ScannerDevice.ClaimRoll | coolscanpy/src/coolscanpy/_device.py:707-713 | reserves the roll exactly when the device is usable and no roll is open |
| RollObjects.ScannerDevice.ReleaseRollReservation | coolscanpy/src/coolscanpy/_device.py:728-731 | frees whatever reservation there is and may be repeated |
| RollObjects.ScannerDevice.BeginClose | coolscanpy/src/coolscanpy/_device.py:831-841 | closes only a device without a roll and without I/O, and then holds the I/O lock |
| RollObjects.ScannerDevice.MarkFault | coolscanpy/src/coolscanpy/_device.py:861-864 | faults an open device with the reason, leaves a closed one and both locks alone |
| RollObjects.OwnedRollBatchIterator.BeginNext | coolscanpy/src/coolscanpy/_roll.py:193-200 | the entry of `next`: ended, busy, or claimed for this thread |
| RollObjects.OwnedRollBatchIterator.ClaimClose | coolscanpy/src/coolscanpy/_roll.py:242-258 | after a wait: wait again, uncertain, already closed, or this thread owns the shutdown |
| RollObjects.OwnedRollBatchIterator.BeginClose | coolscanpy/src/coolscanpy/_roll.py:224-258 | requests the roll's stop exactly when none of the three early tests answers |
| RollObjects.OwnedRollBatchIterator.Next | coolscanpy/src/coolscanpy/_roll.py:192-217 | the whole call: both locks are freed exactly when it ran, the generator ended and no held child stands in the way, and are untouched on every other way out; closed, uncertain and claim flags accordingly; objects stay in agreement and match the protocol's run |
| RollObjects.OwnedRollBatchIterator.Close | coolscanpy/src/coolscanpy/_roll.py:219-283 | the whole call: it returns exactly when the batch is closed; both locks are freed exactly when it claimed the shutdown, the worker ended and no held child stands in the way, and are untouched on every refusal; objects stay in agreement and match the protocol's run |
| RollObjects.RollReservation.ReserveBatchLocked | coolscanpy/src/coolscanpy/_roll.py:1945-1969 | succeeds exactly on a quiet open roll of a usable free device, and then holds both locks with the stop cleared and the batch installed; on every refusal nothing changes |
| RollObjects.RollReservation.RetainUncertainBatch | coolscanpy/src/coolscanpy/_roll.py:2020-2027 | keeps the active batch reachable, and only that one |
| RollObjects.RollReservation.BeginHold | coolscanpy/src/coolscanpy/_roll.py:653-664 | preview, film status and exposure solving start only on a quiet open roll |
| RollObjects.RollReservation.Hold | coolscanpy/src/coolscanpy/_roll.py:653-832 | the whole frame of preview, film status and exposure solving: it runs exactly on a quiet open roll with a usable free device, and leaves the roll as quiet and the I/O lock as it found them |
| RollObjects.RollReservation.ScanClose | coolscanpy/src/coolscanpy/_roll.py:447-468 | which wait of `Roll.close` goes on, or which batch it closes |
| RollObjects.RollReservation.BeginClose | coolscanpy/src/coolscanpy/_roll.py:428-468 | queues behind another close, returns on a closed roll, else claims the closing flag and sets the stop |
| RollObjects.RollReservation.Close | coolscanpy/src/coolscanpy/_roll.py:414-501 | the whole call, as the protocol's run leaves it: says exactly when it closes the roll; it frees the roll reservation exactly then, leaving no lock of the roll behind, and a refused close leaves every lock as it was and the roll open |
| HeldToken.StepKeepsInv | coolscanpy/src/coolscanpy/_roll.py:503-548 | every careful call and every worker step keeps ownership of held children linear and the batch bookkeeping ordered, the reads and writes of the held field by `release`, `eject`, a superseding preview and `Roll.close` being separate steps |
| HeldToken.HeldChildIsLinear | coolscanpy/src/coolscanpy/_roll.py:503-548 | in every careful run at most one child is alive across the held field, the pending field, the call in flight and the worker; every child handed out has exactly one owner or exactly one recorded end, and a pending child implies an active batch |
| HeldToken.BatchAccountsForItsChild | coolscanpy/src/coolscanpy/_roll.py:1971-1997 | a batch reserved with a child keeps it accounted for and ends with it dispatched, torn down or found dead |
| HeldOutcomes.FateTellsItsCause | coolscanpy/src/coolscanpy/_roll.py:503-548 | in every careful run a child has met an end (ejected, released, torn down, dispatched, replaced, lost, dead) exactly if one of the steps so far was that end of that child |
| HeldOutcomes.EndingHasACall | coolscanpy/src/coolscanpy/_roll.py:517-545 | a child that is being released or ejected was the held one when somebody called for just that, and the client has done nothing else since |
| HeldOutcomes.EjectedOnlyOnRequest | coolscanpy/src/coolscanpy/_roll.py:1917-1927 | in every careful run a child is ejected only if `eject` was called while it was the held one |
| HeldOutcomes.StoppedExactlyIfAsked | coolscanpy/src/coolscanpy/_roll.py:1959-1969 | a batch is stopped exactly if somebody has asked for it since it was reserved |
| HeldOutcomes.WorkerStartsExactly | coolscanpy/src/coolscanpy/_roll.py:1515-1519 | `next` starts a worker exactly for a batch that has neither started nor ended and that nobody has asked to stop |
| HeldOutcomes.MeteringEndsUnderStop | coolscanpy/src/coolscanpy/_roll.py:1178-1179 | after a stop during an exposure solve the child that comes back is released, not held |
| HeldOutcomes.ClosedRollHoldsNothing | coolscanpy/src/coolscanpy/_roll.py:469-501 | when the roll is closed every child it was ever given has met its end |
| HeldLoss.LostExactlyByCarelessCalls | coolscanpy/src/coolscanpy/_roll.py:503-548 | from every state of the invariant, some continuation without a further careless call loses a child exactly when the step taken is careless: `next` on an ended iterator, or `release`, while the worker may still store a child |
| HeldLoss.LostExactlyAtRisk | coolscanpy/src/coolscanpy/_roll.py:517-522 | whatever is in flight, a child can still be lost exactly when a `release` has read None and the batch's worker has not come past storing one |
| HeldLoss.CarefulWithoutBatch | coolscanpy/src/coolscanpy/_roll.py:503-548 | a client that calls `release` only without an active batch and no `next` on an ended iterator is careful |
| HeldLoss.CarelessReleaseLosesAChild | coolscanpy/src/coolscanpy/_roll.py:517-520 | a run: preview, batch of one slot, its frame, then `release` reads None, the worker stores child 2, and the release writes None over it |
| HeldLoss.CarelessNextLosesAChild | coolscanpy/src/coolscanpy/_roll.py:192-217 | a run to a careless `next` after an unconfirmed close, continued to a live child that is overwritten |
| BatchPipeline.StepKeepsInv | coolscanpy/src/coolscanpy/_roll.py:1618-1641 | every worker and consumer step keeps the accounting of finalised, queued and yielded frames |
| BatchPipeline.FramesArriveInOrder | coolscanpy/src/coolscanpy/_roll.py:1850-1880 | yielded frames are a prefix of the finalised ones, in requested order; at most two are ahead of the consumer; one terminal marker follows the last frame |
| BatchPipeline.MarkerTellsTheEnd | coolscanpy/src/coolscanpy/_roll.py:1832-1880 | once the worker is done its marker is failed exactly when the adapter or the progress callback raised, else stopped exactly when the last acknowledgement was STOP, else complete with every slot acknowledged; the consumer ends with that marker |
| BatchPipeline.NothingDiscardedUnlessAbandoned | coolscanpy/src/coolscanpy/_roll.py:1856-1861 | until the client abandons the batch no frame is thrown away |
| BatchPipeline.StopTakesEffect | coolscanpy/src/coolscanpy/_roll.py:1542-1550 | after a stop every acknowledgement is STOP, never EJECT or CONTINUE_HOLD, and at most one further frame is finalised |
| BatchPipeline.AcknowledgementsFollowTheRequest | coolscanpy/src/coolscanpy/_roll.py:1542-1550 | slots are acknowledged once and in order; only the last one ejects (if asked) or holds (if a held child was resumed and no eject asked); a stop is the last acknowledgement |
| BatchPipeline.DrainNeverBlocks | coolscanpy/src/coolscanpy/_roll.py:2097-2119 | while the drain runs, worker or consumer can always move |
| BatchPipeline.DrainStep | coolscanpy/src/coolscanpy/_roll.py:2110-2119 | every such move brings the end of the batch nearer |
| BatchPipeline.DrainEnds | coolscanpy/src/coolscanpy/_roll.py:1870-1880 | so every long enough schedule ends with the worker done and the queue empty |
| RollObjects.ScannerDevice.MarkFaultIfCleanupError | coolscanpy/src/coolscanpy/_device.py:866-885 | ends on every cause/context graph, cycles included; an open device is faulted, with that failure's text, exactly when a cleanup failure is reachable from the raised error, and else nothing changes |
| CleanupFault.ClosedSetHoldsChain | coolscanpy/src/coolscanpy/_device.py:873-885 | a set closed under links holds the end of every chain that starts in it |
| CleanupFault.ReachableExactly | coolscanpy/src/coolscanpy/_device.py:880-885 | an exception leads to another exactly if they are the same, or its cause leads there, or its context does |
| BridgeSafety.StepKeepsInv | bridge/src/scanstudio_bridge/service.py:1723-1770 | every action of dispatch thread, workers and other processes keeps lane, gate, job and event order consistent |
| BridgeTheorems.TransportIsExclusive | bridge/src/scanstudio_bridge/service.py:594-634 | no two of preview, solve, scan with its anomaly eject, eject and close are ever in flight together, on the shutdown and end-of-input paths included, and none after the session has exited |
| BridgeTheorems.FlagsTellTheTruth | bridge/src/scanstudio_bridge/service.py:814-822 | a lane reported held is held by this process, and the gate is up exactly while one accepted operation has not cleared it |
| BridgeTheorems.EventsFormBlocks | bridge/src/scanstudio_bridge/service.py:903-915 | worker events come in acceptance order in contiguous blocks, and only the last event of a block is terminal |
| BridgeTheorems.NothingAcceptedBeforeTheTerminalEvent | bridge/src/scanstudio_bridge/service.py:658-680 | before the next motion request, eject or close is accepted the operation in progress has emitted its terminal event, its lane already free |
| BridgeTheorems.FinishedBlocksAreTerminated | bridge/src/scanstudio_bridge/service.py:960-966 | every earlier operation has exactly one terminal event |
| BridgeTheorems.EveryClearedOperationReported | bridge/src/scanstudio_bridge/service.py:1736-1770 | an operation whose gate is clear has emitted exactly one terminal event |
| BridgeClaims.KnownExactlySince | bridge/src/scanstudio_bridge/service.py:944-958 | over every run the session's fields say exactly what its history says: the device was opened and not closed since; a preview succeeded or frames were placed by hand and nothing has retired that since; another process took the lane and has not let go |
| BridgeClaims.MotionAcceptedExactly | bridge/src/scanstudio_bridge/service.py:1038-1128 | over every run a preview, solve or scan is accepted exactly when the device has been opened and not closed since, a preview stands for a solve or scan, the session is armed, every earlier operation has cleared its gate and no other process has the lane; else nothing changes |
| BridgeClaims.EjectAndCloseAcceptedExactly | bridge/src/scanstudio_bridge/service.py:658-707 | an eject is accepted so too, without needing a preview; a close needs neither arming nor the lane |
| BridgeClaims.ShutdownWaitsForOwnedWork | bridge/src/scanstudio_bridge/service.py:594-622 | over every run the session exits only with the device closed, its motion thread gone, its last job terminal and nobody on the transport |
| BridgeClaims.FaultIsHalted | bridge/src/scanstudio_bridge/service.py:1546-1580 | over every run a scan that has run out of retries goes on only after its anomaly eject came back |
| BridgeObjects.LaneLock.TryLock | bridge/src/scanstudio_bridge/safety.py:95-107 | takes a free lane, refuses a held one at once |
| BridgeObjects.BridgeService.AcceptPreview | bridge/src/scanstudio_bridge/service.py:789-822 | the preview gates in order, and on acceptance lock, flag and gate together |
| BridgeObjects.BridgeService.AcceptSolve | bridge/src/scanstudio_bridge/service.py:928-938 | the same, behind a completed preview |
| BridgeObjects.BridgeService.AcceptScan | bridge/src/scanstudio_bridge/service.py:1038-1131 | the same, with a fresh unfinished job record |
| BridgeObjects.BridgeService.BeginDeviceEject | bridge/src/scanstudio_bridge/service.py:692-707 | an eject takes the lane but not the gate |
| BridgeObjects.BridgeService.EndDeviceEject | bridge/src/scanstudio_bridge/service.py:742-764 | only a confirmed eject retires the preview |
| BridgeObjects.BridgeService.CheckClose | bridge/src/scanstudio_bridge/service.py:658-673 | refused while a job runs or an outcome is still being reported |
| BridgeObjects.BridgeService.ManualFramesPlaced | bridge/src/scanstudio_bridge/service.py:974-1016 | re-arms the preview claim outside motion operations only |
| BridgeObjects.BridgeService.TransportReturned | bridge/src/scanstudio_bridge/service.py:944-958 | a preview is claimed on success only and retired by a losing failure only |
| BridgeObjects.BridgeService.ConcludeJob | bridge/src/scanstudio_bridge/service.py:1724 | marks the last job terminal |
| BridgeObjects.BridgeService.RunWorker | bridge/src/scanstudio_bridge/service.py:836-915 | a whole worker, whatever the transport does: lane and gate end free, the job terminal, the preview claim as its outcome says, the events one block whose last and only terminal event shows the lane free; all of it a run of the protocol, the gate cleared last |
| BridgeObjects.BridgeService.Motion | bridge/src/scanstudio_bridge/service.py:789-966 | a motion request to its end: a refused one changes nothing, an accepted one sends its acceptance and one block and leaves lane and gate free and no job running |
| BridgeObjects.BridgeService.Eject | bridge/src/scanstudio_bridge/service.py:682-764 | an eject to its end: the lane is free again, the gate untouched, the preview retired only if the film is out |
| BridgeObjects.BridgeService.CloseDevice | bridge/src/scanstudio_bridge/service.py:658-680 | a close to its end: refused without a change, or the device and its preview gone |
| SlotAccounting.ScanLedger.OnFrame | bridge/src/scanstudio_bridge/service.py:1352-1356 | resolves the slot |
| SlotAccounting.ScanLedger.OnMeterRefusalSkipped | bridge/src/scanstudio_bridge/service.py:1362-1369 | accepts exactly an allowed skip of an unresolved slot |
| SlotAccounting.ScanLedger.FirstPendingSlot | bridge/src/scanstudio_bridge/service.py:1388-1410 | the first failed slot of the report, ambiguous exactly when there are several |
| SlotAccounting.SelectIsSublist | bridge/src/scanstudio_bridge/service.py:1678-1687 | each reported list keeps request order and holds exactly the slots of its kind |
| SlotAccounting.ReportsPartition | bridge/src/scanstudio_bridge/service.py:1678-1687 | the three lists cover every requested position exactly once |
| SlotAccounting.LedgerMeaning | bridge/src/scanstudio_bridge/service.py:1203-1204 | what counts as resolved and as skipped, said on the trace of callbacks itself |
| SlotAccounting.ReportCoversTheRequest | bridge/src/scanstudio_bridge/service.py:1626-1687 | over every trace of callbacks completed, skipped and failed are disjoint order-preserving sublists that cover the request, each with its exact membership |
| ProcessFence.BridgeProcessOwnership.TakeFence | bridge/src/scanstudio_bridge/safety.py:138-174 | acquires only on success and leaves no descriptor or environment entry behind on any failure |
| ProcessFence.BridgeProcessOwnership.Close | bridge/src/scanstudio_bridge/safety.py:176-189 | idempotent, drops only this bridge's copy and its own environment entries, never unlocks |
| ProcessFence.LockFile.Flock | bridge/src/scanstudio_bridge/safety.py:152-158 | refused exactly while another description holds the lock |
| ProcessFence.LockFile.Close | bridge/src/scanstudio_bridge/safety.py:189 | the last copy of a description to close takes the lock with it |
| ProcessFence.FenceIsExclusive | bridge/src/scanstudio_bridge/safety.py:116-189 | over every interleaving of opening, flock, record, failure, crash, spawn and exit: two generations never hold the fence together, none holds it while another attempt has the flock, and an attempt that is over has left nothing behind |
| ProcessFence.AcquiresExactlyWhenFree | bridge/src/scanstudio_bridge/safety.py:138-174 | an attempt's flock succeeds exactly when no generation, surviving workers included, holds the fence and no other attempt in progress has the flock; ownership begins exactly with the record written after that |
| FenceHistory.UsedExactlyWhileHere | bridge/src/scanstudio_bridge/safety.py:116-189 | over every run, the bridge that opened a description and the workers it spawned have it open exactly while they are there: until they close, crash or exit; nobody else has |
| FenceHistory.FenceHeldExactly | bridge/src/scanstudio_bridge/safety.py:185-189 | so a generation holds the fence exactly if its bridge has written its record and it, or a worker it spawned, is still there |
| ProcessFence.AttemptIsAcquire | bridge/src/scanstudio_bridge/safety.py:138-174 | an uninterrupted attempt does what `acquire` does in one go, and acquires exactly under that condition |
| ProcessFence.RefusedByAFailingBridge | bridge/src/scanstudio_bridge/safety.py:151-168 | a run in which nobody ever holds the fence and still an attempt is refused, by a bridge about to fail on its record |
| ProcessFence.UnlockingCloseBreaksTheFence | bridge/src/scanstudio_bridge/safety.py:185-189 | with an unlocking close the next bridge would get in beside a surviving worker |
| CamelCase.SnakeOfCamel | bridge/src/scanstudio_bridge/protocol.py:85-89 | reading a wire key back gives the field name, up to underscores that capitalise nothing |
| CamelCase.CamelOfSquash | bridge/src/scanstudio_bridge/protocol.py:85-89 | those underscores do not show on the wire |
| CamelCase.SameKeyIff | bridge/src/scanstudio_bridge/protocol.py:85-89 | two field names share a wire key exactly when they differ only in such underscores |
| CamelCase.SquashKeepsWords | bridge/src/scanstudio_bridge/protocol.py:85-89 | a name has none exactly when every later word starts with a letter |
| CamelCase.CamelIsInjective | bridge/src/scanstudio_bridge/protocol.py:85-89 | camelCase is injective, with an inverse, on names whose later words start with a letter |
| CamelCase.CamelHasNoUnderscore | bridge/src/scanstudio_bridge/protocol.py:85-89 | no wire key has an underscore |
| CamelCase.CamelExactly | bridge/src/scanstudio_bridge/protocol.py:85-89 | so a field's key is the one key without underscores that reads back as its name |
| WireCodec.RoundTrip | bridge/src/scanstudio_bridge/protocol.py:92-237 | for every type built from the supported constructors, decoding the encoding of a well-typed value returns it |
| WireCodec.DecodedIsWellTyped | bridge/src/scanstudio_bridge/protocol.py:155-237 | whatever decodes is a well-typed value, defaults included |
| WireCodec.DecodeEncodeDecode | bridge/src/scanstudio_bridge/protocol.py:92-237 | decode, encode, decode equals decode: defaults filled and whole numbers widened once |
| WireCodec.LastAttributeWins | bridge/src/scanstudio_bridge/protocol.py:101-105 | of several attributes with one key the last is sent |
| WireCodec.DistinctKeysIff | bridge/src/scanstudio_bridge/protocol.py:126 | a class's wire keys are distinct exactly when its names stay distinct without those underscores |
| WireCodec.RoundTripNeedsDistinctKeys | bridge/src/scanstudio_bridge/protocol.py:101-152 | for every class of sound fields, each of a type with more than one value, all well-typed instances round-trip exactly when the wire keys are distinct |
| WireCodec.CollisionLosesAValue | bridge/src/scanstudio_bridge/protocol.py:101-152 | of two instances of any class that differ in a field whose key a later field shares, at most one round-trips |
| WireCodec.SnakeNamesRoundTrip | bridge/src/scanstudio_bridge/protocol.py:85-152 | distinct snake_case names whose later words start with a letter give distinct keys, so every well-typed instance of such a class round-trips |
| WireCodec.DataIsData | bridge/src/scanstudio_bridge/protocol.py:169-237 | JSON passed through where a type asks for nothing encodes back to the same JSON |
| WireCodec.FromWire | bridge/src/scanstudio_bridge/protocol.py:115-152 | the loop over fields: succeeds exactly when no key is unknown and each field decodes from its key or else has a default; each attribute is then what its key decodes to, or else that default |
| WireMeaning.DecodesExactlyWhatIsWritten | bridge/src/scanstudio_bridge/protocol.py:101-237 | for every well-formed type, JSON and value: decoding gives the value exactly when the JSON is written for it, where a whole number stands for itself under a float and any key whose attribute has its default may be missing |
| WireMeaning.DefaultsMayBeLeftOut | bridge/src/scanstudio_bridge/protocol.py:137-147 | taking out of the encoding of any well-typed instance any keys whose attributes equal their defaults, decoding still gives that instance |
| YamlText.StripComment | scripts/check_github_action_pins.py:82-110 | the scanning loop computes the text without its comment, or refuses an open quotation |
| YamlText.WithoutCommentIdempotent | scripts/check_github_action_pins.py:82-110 | stripping a comment twice is stripping it once, for every text |
| YamlComments.CommentsExactly | scripts/check_github_action_pins.py:82-110 | a text of bare characters and quoted parts, where a quotation mark opens only at the start, after a space and after `[`, `:` or `,`: ending there or in a comment mark at the start or after a space, it is kept without the spaces at its end; ending in a quotation that never closes, it is refused |
| YamlComments.EveryTextHasParts | scripts/check_github_action_pins.py:82-110 | and every text is of one of these three forms |
| YamlBodies.CommentIsRemoved | scripts/check_github_action_pins.py:82-110 | a mark after a space outside quotes, and all that follows it, is removed with the space before it |
| YamlBodies.PlainTextIsKept | scripts/check_github_action_pins.py:82-110 | a text without quotation marks and without a mark after a space is kept, but for spaces at its end |
| YamlScalars.QuotedScalar | scripts/check_github_action_pins.py:178-195 | the loop finds the closing quotation and refuses anything after it |
| YamlScalars.DecodeQuotedScalar | scripts/check_github_action_pins.py:127-159 | the decoded text, or the first reason to refuse it |
| YamlScalars.FlowItems | scripts/check_github_action_pins.py:198-239 | the loop computes the items between unquoted commas with every refusal in order |
| YamlScalars.EntryIsNoInlineValue | scripts/check_github_action_pins.py:113-124 | no text is both a mapping entry and an inline value, whatever the key |
| YamlWords.EntryReads | scripts/check_github_action_pins.py:113-124 | a canonical key, a colon, and after at least one space a value that starts with none, is read as that key and value |
| YamlWords.OnlyEntriesRead | scripts/check_github_action_pins.py:113-124 | and nothing else is read as an entry |
| YamlWords.PlainExactly | scripts/check_github_action_pins.py:162-175 | a plain scalar is accepted exactly when it starts with no indicator, none of its words ends in a colon, and none is an anchor, an alias or a tag; it stands for itself |
| YamlQuoting.SingleQuotedDecodes | scripts/check_github_action_pins.py:127-145 | decoding undoes quote doubling for every text, and refuses exactly those with a control character |
| YamlQuoting.OnlySingleQuotedRead | scripts/check_github_action_pins.py:127-145 | and nothing but a text with doubled quotes is read as a single-quoted scalar |
| YamlQuoting.DoubleQuotedDecodes | scripts/check_github_action_pins.py:146-159 | decoding undoes JSON escaping for every text without control characters |
| YamlEscapes.EscapesRead | scripts/check_github_action_pins.py:146-159 | every text of plain characters, short escapes, `\u` escapes in either case and surrogate pairs is read as its code points, and refused exactly when one of them is a control character or half of a pair |
| YamlEscapes.OnlyEscapesRead | scripts/check_github_action_pins.py:146-159 | and nothing else is read as a double-quoted scalar |
| YamlQuoting.DoubleQuotedIsItem | scripts/check_github_action_pins.py:198-239 | every text can stand in a flow sequence once it is double-quoted |
| YamlQuoting.JoinThenSplit | scripts/check_github_action_pins.py:198-239 | flow-splitting a comma-joined list of canonical items returns the items |
| YamlQuoting.SplitYieldsItems | scripts/check_github_action_pins.py:198-239 | every item of an accepted flow sequence is canonical |
| YamlQuoting.SplitJoinSplit | scripts/check_github_action_pins.py:198-239 | so splitting, joining and splitting again changes nothing |
| YamlFlow.FlowExactly | scripts/check_github_action_pins.py:198-239 | the text between the brackets splits at its unquoted commas into trimmed items; all blank it has none, otherwise a blank last piece is a trailing comma and any other blank piece an empty item |
| YamlFlow.OnlyPiecesSplit | scripts/check_github_action_pins.py:198-239 | and whatever splits is such a text, with no unquoted bracket and every quotation closed |
| YamlLines.LogicalLines | scripts/check_github_action_pins.py:263-302 | the nested loops compute the logical lines: comments, blank lines and literal bodies dropped, odd indents and markers refused |
| YamlBodies.BodyOpeners | scripts/check_github_action_pins.py:286-289 | `run` or `path`, a colon, any space and a bar open a body |
| YamlBodies.OnlyBodyOpeners | scripts/check_github_action_pins.py:286-289 | and no other line does |
| YamlBodies.BodyIsNotRead | scripts/check_github_action_pins.py:286-300 | after a line that opens a literal body, any lines that are blank or deeper than it, up to a line that is neither, are not read: the logical lines are those without them |
| YamlBodies.RestIsRead | scripts/check_github_action_pins.py:263-302 | reading goes on exactly at the line after such a body |
| YamlBodies.BodiesAreNotRead | scripts/check_github_action_pins.py:263-321 | so a text into which such bodies are inserted, one after the other, reads as the same tree |
| YamlBodies.NoiseIsNotRead | scripts/check_github_action_pins.py:263-285 | blank lines and comment lines are not read, wherever they stand |
| YamlBodies.OddAndMarkersAreRefused | scripts/check_github_action_pins.py:263-285 | an odd indentation and a directive or document marker are refused, whatever follows |
| YamlParser.Parser.Parse | scripts/check_github_action_pins.py:309-321 | the whole-document parse equals its specification |
| YamlParser.Parser.ParseBlock | scripts/check_github_action_pins.py:323-336 | dispatches on the first line, within the nesting limit, indentation being twice the depth |
| YamlParser.Parser.ParseEntry | scripts/check_github_action_pins.py:338-358 | an entry with its value or its nested block |
| YamlParser.Parser.ParseMapping | scripts/check_github_action_pins.py:360-375 | the mapping loop, duplicate keys refused in line order |
| YamlParser.Parser.ParseSequence | scripts/check_github_action_pins.py:377-433 | the sequence loop |
| YamlParser.Parser.ParseItem | scripts/check_github_action_pins.py:385-408 | one item: block below a bare dash, value, or inline mapping |
| YamlParser.Parser.ParseItemMapping | scripts/check_github_action_pins.py:409-432 | a mapping that starts beside the dash |
| YamlParser.Block | scripts/check_github_action_pins.py:323-336 | progresses: a block takes at least one line and never runs past the end |
| YamlIndent.BlockStops | scripts/check_github_action_pins.py:323-433 | a block takes only lines indented between itself and the deepest level, and on even indents stops at the end or at a strictly smaller indent |
| YamlIndent.DocumentUsesEveryLine | scripts/check_github_action_pins.py:309-321 | an accepted document has used every line, none indented past the limit; on even indents nothing can trail a root block |
| YamlGrammar.BlockSound | scripts/check_github_action_pins.py:323-433 | what the parser accepts is in the grammar, with that tree |
| YamlGrammar.BlockComplete | scripts/check_github_action_pins.py:323-433 | what the grammar shows as a block the parser reads as that tree |
| YamlGrammar.ParserMeetsGrammar | scripts/check_github_action_pins.py:309-433 | a document is accepted with a tree exactly when the grammar shows that tree, so no document has two readings |
| YamlRoundTrip.BlockIsShown | scripts/check_github_action_pins.py:323-433 | the printed lines of a well-formed block show it |
| YamlRoundTrip.PrintThenParse | scripts/check_github_action_pins.py:309-433 | parsing the canonical printing of any well-formed tree gives it back: block maps and lists, inline and bare-dash items, flow lists, scalars and nulls, within the nesting limit |
| YamlPrinter.InlineReads | scripts/check_github_action_pins.py:242-260 | a printed scalar or flow sequence is read as itself, under any key |
| YamlCanonical.ReadValueIsWf | scripts/check_github_action_pins.py:242-260 | the only values one line can give: printable scalars, flow lists of such, and literal blocks under `run` or `path` |
| YamlCanonical.ShownBlockIsWf | scripts/check_github_action_pins.py:323-433 | every tree that is read can be printed |
| YamlCanonical.ParsePrintParse | scripts/check_github_action_pins.py:309-433 | parse, print, parse equals parse |
| YamlWorkflow.LogicalLinesAreClean | scripts/check_github_action_pins.py:263-302 | every logical line is evenly indented, non-empty and free of comments, and stripping it again changes nothing |
| YamlWorkflow.RenderThenRead | scripts/check_github_action_pins.py:263-302 | clean lines without literal bodies are read back as written |
| YamlWorkflow.BlockIsBodyFree | scripts/check_github_action_pins.py:286-300 | an accepted document has no line deeper than a literal block's line after it |
| YamlWorkflow.BareTextReadsTheSame | scripts/check_github_action_pins.py:263-321 | a workflow without its comments, blank lines and literal bodies reads as the same tree |
| YamlPublish.WriteThenRead | scripts/check_github_action_pins.py:82-433 | a well-formed tree of comment-stable values written out as text is read back as itself |
| YamlPublish.CleanExactlyWhenStable | scripts/check_github_action_pins.py:82-110 | exactly those trees print lines that comment stripping leaves alone |
| YamlPublish.QuotedIsStable | scripts/check_github_action_pins.py:82-110 | a single-quoted scalar survives comment stripping whatever it quotes |
| YamlPublish.DoubleQuotedIsStable | scripts/check_github_action_pins.py:82-110 | and so does a double-quoted one |
| WindowedSum.CumulateColumns | bridge/tools/render_ice_references.py:213-215 | the column sums of the zero-padded mask, in all but the first row and column of the buffer |
| WindowedSum.CumulateRows | bridge/tools/render_ice_references.py:215 | the row pass, in place, gives every corner of the integral image |
| WindowedSum.Corners | bridge/tools/render_ice_references.py:217-223 | four corners give the sum over a window |
| WindowedSum.WindowedSumExcludingCenter | bridge/tools/render_ice_references.py:199-223 | for every mask, size and radius the result is the naive count over the in-frame window without its centre |
| WindowedSum.WindowCutToFrame | bridge/tools/render_ice_references.py:199-223 | the padding counts for nothing: the count is that of the frame's own pixels within the radius |
| WindowedSum.NeighbourSumBounds | bridge/tools/render_ice_references.py:199-208 | for 0/1 masks the count lies between 0 and (2r+1)^2 - 1 |
| TrimmedMean.MeanLiesBetween | bridge/tools/render_ice_references.py:226-244 | the mean lies between smallest and largest sample, and between the two percentiles whenever trimming leaves anything |
| TrimmedMean.FallbackExactlyOnUnequalPair | bridge/tools/render_ice_references.py:241-243 | trimming a non-empty sample leaves nothing exactly when it is two unequal values |
| TrimmedMean.ValueBetween | bridge/tools/render_ice_references.py:241 | an interpolated percentile lies between the samples around its position |
| TrimmedMean.SortPermutes | bridge/tools/render_ice_references.py:241 | sorting for the percentiles only reorders |
| TrimmedMean.MeanTimesCount | bridge/tools/render_ice_references.py:226-244 | the mean times the count is the sum of the samples between the percentiles, each as often as it occurs, or of all samples when there are none between |
| TrimmedMean.TrimKeepsMultiplicities | bridge/tools/render_ice_references.py:242 | a sample within the bounds is kept as often as it occurs, any other not at all |
| TrimmedMean.SumIgnoresOrder | bridge/tools/render_ice_references.py:244 | the sum does not depend on the order of the samples |
| TrimmedMean.SumOfParts | bridge/tools/render_ice_references.py:244 | and is the sum of its parts |
| TrimmedMean.ValueIsLinear | bridge/tools/render_ice_references.py:241 | a position between two samples takes its share of each |
| TrimmedMean.RailsAreOneHundredth | bridge/tools/render_ice_references.py:241 | the percentiles leave out the outermost hundredth of the places on either side |

## Left out

- The two critical sections of `scan_many` are one step, and a thread is at one place at a time: calls back into the driver from a progress callback, which the driver refuses by thread id, are not modelled.
- Deadlines and time-outs are outcomes that may happen at any moment of a wait; nothing is said about how long a wait lasts. The drain theorems leave the drain's own deadline out.
- The registry of open devices, reuse of object ids after collection, evidence directories and topology checks are left out.
- The capture adapter and the transport are environments that may answer anything their callers handle; parameter validation, receipts, recipes and telemetry are left out.
- HeldToken.HeldChildIsLinear: one client calls the public methods one after the other, carefully; `LostExactlyByCarelessCalls` says what carefulness buys. A child counts as ended once it is handed to the adapter's release, eject or teardown.
- RollTheorems.UncertainOwnershipIsRetained: starts where no thread is on its way to a release and ends at the next call of `next`; `ReleaserWasInside` and `FurtherNextReleases` say what happens otherwise.
- RollObjects.OwnedRollBatchIterator.Next: one thread's call while no other moves, so that a wait runs into its deadline, and so for both `Close` methods; the interleavings are those of `RollProtocol`.
- BridgeObjects.BridgeService.Motion: one operation after the other, and so for `Eject` and `CloseDevice`; `BridgeProtocol` interleaves them.
- BridgeTheorems.EventsFormBlocks: only events the motion workers emit; the soft-timeout watchdog, status events and telemetry are not in the trace, and `emit` is total.
- SlotAccounting.ReportCoversTheRequest: the exit for typed bridge errors; the retry-exhausted and generic exits report differently on purpose.
- The scan job's soft-timeout watchdog, `scan.stop` and job id checks of the bridge are left out.
- ProcessFence models the kernel's open file descriptions and flock; each bridge makes one attempt, and descriptor numbers, file modes and the record's text are left out.
- WireCodec.RoundTrip: numbers are exact, so rounding of whole numbers to floats and overflow are not modelled, and infinities and NaN are one value that `float` refuses; enumerations have string values; all refusals are one error.
- WireCodec.RoundTripNeedsDistinctKeys: fields whose type has one value only, such as an enumeration of one member, can share a key without loss and are outside the equivalence.
- WireCodec.FromWire: constructors that validate their arguments and the encoder's refusal of foreign Python types are left out; nested objects are decoded by the specification's recursion.
- CamelCase.CamelIsInjective: upper-casing is that of ASCII; other alphabets do not occur in field names.
- YAML line numbers, which only label messages, are dropped; so are reading the file, size limits and the inspection of the parsed tree. Bodies of literal blocks have no value in the original either.
- YamlQuoting.DoubleQuotedDecodes: for one way of writing; `YamlEscapes.EscapesRead` is for all of them.
- YamlPublish.WriteThenRead: only for trees whose printed lines comment stripping leaves alone (`CleanExactlyWhenStable` says which); a plain value with a comment mark after a space cannot be written as text at all. Line-level printing has no such limit.
- WindowedSum: integers are unbounded where the original has 64 bits.
- TrimmedMean.MeanLiesBetween: exact arithmetic instead of double precision.
- The Swift app, the web pages, documentation checks, TIFF and raw rendering, archives and downloads are outside the model.
