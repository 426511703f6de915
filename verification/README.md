# FlowBrake: a model of the packet pipeline and proofs about it

FlowBrake captures packets, decides per process and globally whether to block, lose, limit or delay
them, and reinjects what is left. This project models the parts of it where a mistake is hard to see
and proves what they promise.

**The engine as a step machine** (`Engine.dfy` and the `Engine*.dfy` files). A receive worker, a send
worker, a rule edit, a snapshot and a stop run at the same time. They share a clock, the send gate,
the queue lock with its condition variable, the rule tables, some atomics and the counters. A state
holds the shared data and one program point per thread. An action is one step of one thread, of the
clock or of the driver; it moves one program point and emits one event, and the event alone says what
happens to the shared data. A thread is inside a lock exactly while its program point is, so both
locks can be read off the program points. The packet driver is an environment: a receive gives a
packet or an error, a send succeeds, fails, fails fatally or panics, and `shutdown_recv` may fail. A
history of captures, sends, drops and reported bytes is kept for the statements only. Runs are finite
sequences of enabled actions from the state `start_with_io` leaves behind; every theorem quantifies
over all of them. `EngineRuns.RunInv` carries one invariant through all runs, and the theorems in
`EngineRuns.dfy`, `EngineDrain.dfy`, `EnginePromises.dfy` and `EngineTurns.dfy` are read off it. Four
more files say what the engine decides: `EngineVerdicts.dfy` has for each drop its cause and for each
cause the drop, `EngineChecks.dfy` the way of a packet through all checks and its offer to the queue,
`EngineEdits.dfy` what an edit changes and releases, `EngineFailures.dfy` what makes the engine fail and
what a failure or a stop brings about. Their conditions are in the fields of the rules, the packet and
the queue. `EngineSnapshots.dfy` has what snapshots report.

**The delay queue** twice: as a value (`QueueModel.dfy`), where every counter is a recount of the
packets, and as the class the program runs (`DelayQueue.dfy`), with a heap, two maps of running
counters and a total updated in place. Every method of the class is tied to the function on the value.
`QueueFacts.dfy` and `QueueRuns.dfy` hold what single operations and whole sequences of them keep,
`QueueAccepts.dfy` what is accepted and where it goes, with packets and bytes counted by listing them.

**Rules, rates and loss.** `Rules.dfy` has the rule tables and the revision that announces edits,
`RuleFacts.dfy` what they mean field by field, `Rates.dfy` the token bucket, its slot and the adaptive
controller over exact reals, `RateControl.dfy` how the controller moves, and `LossSampler.dfy` the
SplitMix64 sampler on 64-bit words, with a reference value in `LossVectors.dfy`.

**Parser and settings.** `Packet.dfy` and `PacketLayout.dfy` relate the IPv4/IPv6 parser to an encoder
of layouts, in both directions. `Text.dfy`, `Settings.dfy`, `SettingsRoundTrip.dfy` and
`SettingsLoaded.dfy` do the same for the settings file; `SettingsKeys.dfy` and `SettingsFile.dfy` say
what each line means, with all keys and values spelled out.

`dafny verify dfyconfig.toml` checks the whole project.

Four statements do not hold as one would first put them. Each is given with its exact condition.

- A timed wait can end after the earliest queued deadline: `send_loop` reads the clock, computes the
  remaining time and starts to wait a little later. The wait ends no later than every deadline exactly
  when no time passed in between (`EngineRuns.WakesByEveryDeadline`); `EngineExample.Oversleeps` gives a
  run in which a packet waits too long.
- Packets of different flows with equal deadlines do not always leave in capture order. A reversed pair
  implies that the first left exactly at that deadline and that a release at the very same instant then
  selected the second (`QueueRuns.PopsFollowCapture`); releases at other instants, or before or after the
  two pops, do no harm. `QueueRuns.ReversedRun` is such a run.
- The user documentation says that an edit leaving a delay nonzero keeps queued deadlines. An overdue
  packet behind a released packet of its flow gets the time of the edit instead, and only such a packet
  does (`QueueFacts.ReleaseRetainsExactly`). It stays due. What is released depends on process and
  direction only, so this needs a flow whose attribution changed while its packets waited: in the run of
  `EngineExample.EditMovesKeptDeadline` the packet ahead was captured before its process was found.
- Settings with a rule for a program named `global` are not read back, because that name shares the
  entry of the global rule; all others that have a place in the file are
  (`SettingsRoundTrip.RoundTripExactly`). `SettingsLoaded.GlobalRuleIsLost` gives settings that are lost.

## Model

| member | source | states |
|---|---|---|
| EngineRuns.RunInv | crates/flowbrake-windows/src/engine.rs:572-810 | Every state of every interleaving satisfies the whole invariant: lock discipline, queue shape, conservation, counters, order, timing, blocking, bytes and snapshots |
| EngineRuns.SendsFollowCapture | crates/flowbrake-windows/src/engine.rs:771-808 | In every run the successful sends of parsed non-loopback packets of one flow occur in capture order, however direct and delayed sends interleave |
| EngineRuns.DirectSendIsAlone | crates/flowbrake-windows/src/engine.rs:777-808 | When a packet is sent directly, no packet of its flow is queued or popped and unfinished |
| EngineVerdicts.CondemnedIsDropped | crates/flowbrake-windows/src/engine.rs:656-810 | Over all runs, a packet condemned at some step (aborted at a check, blocked, drawn by the sampler, refused by a bucket or a quota, refused by the driver, thrown away) is sent at no time and is recorded as dropped with that very reason once both workers have left it |
| EngineVerdicts.DropHasCause | crates/flowbrake-windows/src/engine.rs:881-892 | The converse: every recorded drop was sealed at an earlier step at which the cause its reason names held, in the fields of the rules, the packet and the queue |
| EngineVerdicts.OnlyOneVisit | crates/flowbrake-windows/src/engine.rs:656-810 | The receive worker takes at most one step per packet from each of its program points |
| EngineVerdicts.SamplerDecides | crates/flowbrake-windows/src/engine.rs:746-749 | A packet the sampler draws is sent at no time and recorded as lost once the worker has left it; one the sampler lets pass is never recorded as lost |
| EngineVerdicts.BucketDecides | crates/flowbrake-windows/src/engine.rs:756-769 | A packet that the bucket of a limit in force refuses, global or of its process, is sent at no time and recorded as dropped for its rate once the worker has left it |
| EngineVerdicts.WithinLimitsIsKept | crates/flowbrake-windows/src/engine.rs:756-769 | A packet that both buckets let pass is never recorded as dropped for its rate |
| EngineChecks.OwnLossDecides | crates/flowbrake-windows/src/engine.rs:928-951 | Loopback packets are not sampled; a loss rate of the process in the direction of the packet decides if it is set, even if it is 0 |
| EngineChecks.GlobalLossDecides | crates/flowbrake-windows/src/engine.rs:944-957 | Otherwise the global loss rate of that direction decides, and 0 means no sampling |
| EngineChecks.SampledByRule | crates/flowbrake-windows/src/engine.rs:928-959 | Over all runs, a packet at the sampler with a rate has that rate from the rule of its process, or from the global rule after its process was found to set none |
| EngineChecks.ZeroLossIsNoLoss | crates/flowbrake-windows/src/engine.rs:935-956 | With a loss rate of 0 for its process, or on loopback, a packet is recorded as lost in no run |
| EngineChecks.NoLossRuleIsNoLoss | crates/flowbrake-windows/src/engine.rs:944-956 | Nor is it with no loss rate for its process and a global rate of 0 or none |
| EngineChecks.TotalLossIsTotal | crates/flowbrake-windows/src/engine.rs:899-905 | With a loss rate of 100% for its process, a packet off loopback is sent in no run |
| EngineChecks.SentPassedEveryCheck | crates/flowbrake-windows/src/engine.rs:678-797 | A parsed packet that was sent has passed both abort checks, the block checks of both rules, the loss stage, both limits and the offer to the queue, in this order, each with the verdict that lets it go on |
| EngineChecks.OfferIsExact | crates/flowbrake-windows/src/engine.rs:771-808 | An offered packet waits exactly if it is off loopback and delayed by the rules in force or behind its flow; then it is queued at capture plus delay or at the last deadline of its flow, or dropped for want of quota; otherwise it is sent at once |
| EngineRuns.OnePlace | crates/flowbrake-windows/src/engine.rs:606-810 | At every moment each captured packet is in exactly one place (sent, dropped, queued, in one worker's hand), exactly once, and nothing else is anywhere |
| EngineRuns.StoppedAccountsForAll | crates/flowbrake-windows/src/engine.rs:316-336 | Once `stop` has returned the queue is empty, every capture was sent once or dropped once, captured = sent + `packets_dropped`, also after a panic in a send; without a failure the shutdown count is 0 |
| EngineRuns.CountersRecount | crates/flowbrake-windows/src/engine.rs:860-892 | Every counter equals the number of packets dropped for its reason, up to drops a worker is half-way through counting |
| EngineRuns.SnapshotsAreCoherent | crates/flowbrake-windows/src/engine.rs:486-513 | Every snapshot taken between any steps of the workers has no more drops than the sum of its six reasons and no more losses than eligible packets |
| EngineSnapshots.SnapshotIsBetween | crates/flowbrake-windows/src/engine.rs:455-513 | Each of the ten counters in a snapshot lies between its value when the snapshot started and its value when it ended |
| EngineSnapshots.SnapshotReportsAll | crates/flowbrake-windows/src/engine.rs:455-490 | When a snapshot is done, every byte credited to any account before it started has been reported by it or an earlier one |
| EngineSnapshots.EligibleAndDelayed | crates/flowbrake-windows/src/engine.rs:946-959 | `packets_loss_eligible` is the number of packets handed to the sampler, `packets_delayed` the number put into the queue |
| EngineRuns.BytesCountedOnce | crates/flowbrake-windows/src/engine.rs:841-858 | For each account, bytes reported by all snapshots + bytes not yet reported + bytes being credited = charged bytes of all successful sends |
| EngineRuns.QuotasHold | crates/flowbrake-windows/src/delay_queue.rs:92-123 | In every reachable state the queue is ordered per flow, its tails are right and all four quotas hold, in-flight packets included |
| EngineRuns.NoLostWakeUp | crates/flowbrake-windows/src/engine.rs:606-654 | A parked un-notified sender without timeout has an empty queue and a running receiver; with one it wakes by every deadline, give or take the time between reading the clock and waiting |
| EngineRuns.WakesByEveryDeadline | crates/flowbrake-windows/src/engine.rs:634-645 | The timeout is no later than every queued deadline if and only if no time passed between reading the clock and waiting |
| EngineRuns.TimeBeforeWaitIsOverslept | crates/flowbrake-windows/src/engine.rs:615-645 | From any reachable state about to wait, a clock step of `ms` before the wait makes the sender wake exactly `ms` after the earliest deadline |
| EngineExample.Oversleeps | crates/flowbrake-windows/src/engine.rs:615-645 | A concrete run ends with the sender parked beyond the deadline of a queued packet |
| EngineExample.EditMovesKeptDeadline | crates/flowbrake-windows/src/engine.rs:377-394 | A concrete run in which an edit releases a packet without a process and thereby moves the deadline of an overdue packet behind it in the flow, whose own delay the edit leaves at 50 ms |
| EngineDrain.DrainingIsDue | crates/flowbrake-windows/src/engine.rs:140-151 | Once draining is set, every packet queued now or later is due at once |
| EngineDrain.DrainNeverWaits | crates/flowbrake-windows/src/engine.rs:633-645 | A draining sender never waits for a deadline: it is notified, or the queue is empty and the receiver still runs |
| EngineDrain.DrainIsBounded | crates/flowbrake-windows/src/engine.rs:572-654 | Once the driver accepts nothing new, the threads take at most as many steps as a measure of backlog, queue and program points, plus what later UI calls add |
| EngineDrain.DrainNeverStops | crates/flowbrake-windows/src/engine.rs:316-336 | Until both workers have exited and `stop` has returned, some thread can take a step: no deadlock between the two locks, the joins and the condition variable |
| EngineDrain.DrainCompletes | crates/flowbrake-windows/src/engine.rs:316-336 | Every draining run can be continued until both workers and `stop` have finished |
| EngineDrain.SenderLeavesLast | crates/flowbrake-windows/src/engine.rs:572-654 | The sender exits with an empty queue and only after the receiver is done, except after a panic in a send, which aborts and discards |
| EngineFailures.AbortHasCause | crates/flowbrake-windows/src/engine.rs:158-210 | The engine is aborted only after a receive error other than the cancellation of an orderly stop, a fatal send error, a panic in a send or a failed receive shutdown |
| EngineFailures.FailureAborts | crates/flowbrake-windows/src/engine.rs:158-173 | Each of these aborts it, as soon as no thread is on its way to saying so |
| EngineFailures.FailureIsComplete | crates/flowbrake-windows/src/engine.rs:158-173 | Once aborted, with no thread in the middle of `fail`, the engine is stopping, the driver handle is closed and everything queued is due |
| EngineFailures.StopTellsEveryone | crates/flowbrake-windows/src/engine.rs:140-156 | While a stop waits for the workers, draining is set and the driver has been told to hand over no more, by the stop or by a failure; afterwards its handle is closed |
| EngineFailures.StopAsksOnce | crates/flowbrake-windows/src/engine.rs:140-156 | A stop that finds `stopping` set never shuts down the receive side itself |
| EngineFailures.ShutsOrFails | crates/flowbrake-windows/src/engine.rs:153-156 | A stop that finds `stopping` unset shuts the receive side down, and a shutdown that fails makes the engine fail |
| EngineFailures.AbortStopsSends | crates/flowbrake-windows/src/engine.rs:184-196 | After an abort nothing is sent but what a worker had past its last abort check at that moment |
| EngineFailures.AbortedReceiverEnds | crates/flowbrake-windows/src/engine.rs:672-682 | A receive error after an abort is no new failure |
| EngineProgress.DrainStep | crates/flowbrake-windows/src/engine.rs:606-810 | In a drain every step of a worker, edit, snapshot or stop strictly lowers the measure; the environment adds at most its stated cost |
| EngineProgress.FinishFinds | crates/flowbrake-windows/src/delay_queue.rs:140-160 | `finish` always finds the popped packet, so its subtractions never underflow |
| EngineTurns.DuePacketGetsItsTurn | crates/flowbrake-windows/src/engine.rs:606-654 | In any run a packet due at the sender's clock reading is popped within 20 sender steps per entry before it, 20 for the one packet that may be about to be queued, and 2; counted between releases and discards, which put due packets into another order |
| EngineTurns.TurnStep | crates/flowbrake-windows/src/engine.rs:606-654 | Each sender step brings the turn of a due packet nearer and no step of another thread but a release or discard puts it off |
| EngineTurns.TurnNeverStuck | crates/flowbrake-windows/src/engine.rs:606-654 | On its way to a due packet the sender waits only for lock holders that can step, never for the driver |
| EnginePromises.NotBeforePromised | crates/flowbrake-windows/src/engine.rs:776-797 | A packet leaves the queue no earlier than capture plus the effective delay when queued, unless a release selected it or draining was set |
| EngineEdits.HeldForItsDelay | crates/flowbrake-windows/src/engine.rs:776-797 | A packet leaves the queue no earlier than capture plus the delay the rules gave it when it was offered, unless draining was set or the release of an edit in between blocks it or delays it no more |
| EngineEdits.EditReleases | crates/flowbrake-windows/src/engine.rs:377-394 | When an edit has moved the revision, each queued packet that it blocks or delays no more is due at once together with such packets before it in its flow; any other keeps its deadline unless that has passed, and the waiting sender is notified |
| EngineEdits.EditEnds | crates/flowbrake-windows/src/engine.rs:338-377 | The tables change only while an edit holds the send gate; when its writes are done they are what its command makes of those it found, and the queue is released exactly if the revision differs |
| EnginePromises.DueAfterMaximumDelay | crates/flowbrake-windows/src/engine.rs:812-839 | Whatever edits occur, a queued packet is due once 5000 ms have passed since its own capture |
| EnginePromises.UndelayedIsNotHeld | crates/flowbrake-windows/src/engine.rs:377-394 | Outside edits, a queued packet is due if the current rules delay neither it nor its queued predecessors in the flow |
| EnginePromises.BlockedIsNeverSent | crates/flowbrake-windows/src/engine.rs:175-210 | At every successful send of a non-loopback packet the rules in force block neither all traffic nor the process attributed at capture |
| EnginePromises.NothingSentWhileBlocked | crates/flowbrake-windows/src/engine.rs:338-404 | From the edit that blocks a process until the edit that lifts the block nothing attributed to it is sent, including packets queued earlier |
| Rules.RuleStore.UpdateRule | crates/flowbrake-windows/src/engine.rs:515-533 | The tables after one rule update, including removal and the revision |
| Rules.RuleStore.Apply | crates/flowbrake-windows/src/engine.rs:338-392 | The tables after a command; the queue is released exactly if the revision moved, and otherwise no delay or block verdict changed |
| Rules.CommandAnnouncesChange | crates/flowbrake-windows/src/engine.rs:344-377 | A command that changes the effective delay or block verdict of any packet changes the revision |
| RuleFacts.BlockMeans | crates/flowbrake-windows/src/engine.rs:916-968 | A packet is blocked exactly if it is off loopback and the global rule or the rule of its process blocks |
| RuleFacts.DelayMeans | crates/flowbrake-windows/src/engine.rs:812-839 | A process delay that is set decides, even if it is 0, otherwise the global one, otherwise 0, all capped at 5000 ms |
| RuleFacts.LimitMeans | crates/flowbrake-core/src/lib.rs:71-96 | A limit counts if it is switched on and not 0, at 1024 bytes per KiB or at the adjusted rate of an adaptive rule |
| RuleFacts.BlockAfterUpdate | crates/flowbrake-windows/src/engine.rs:515-533 | After a rule is set for a process its packets are blocked exactly if that rule or the global one blocks; all others are treated as before |
| RuleFacts.DelayAfterUpdate | crates/flowbrake-windows/src/engine.rs:515-533 | The same for the effective delay in both directions |
| RuleFacts.LossAndLimitAfterUpdate | crates/flowbrake-windows/src/engine.rs:515-533 | The same for loss rates and limits of the process |
| RuleFacts.AfterGlobalUpdate | crates/flowbrake-windows/src/engine.rs:350-364 | After a global rule is set it decides for every packet whose process does not decide for itself |
| RuleFacts.RevisionAfterUpdate | crates/flowbrake-windows/src/engine.rs:515-527 | A process update moves the revision exactly if it changes block, loss or delay of the process |
| RuleFacts.RevisionAfterGlobal | crates/flowbrake-windows/src/engine.rs:350-364 | A global update moves it exactly if it changes block or delay |
| RuleFacts.CommandMeans | crates/flowbrake-windows/src/engine.rs:338-377 | After a command the chosen processes have the new rule, or none if it sets nothing, and nothing else has changed; clearing empties both tables |
| QueueAccepts.RejectedByQuota | crates/flowbrake-windows/src/delay_queue.rs:92-104 | A packet is turned away exactly if it would take the packets or bytes held for everybody or for its process, counted by listing them, past their quota |
| QueueAccepts.AcceptsExactly | crates/flowbrake-windows/src/delay_queue.rs:92-104 | For a queue within its quotas, a packet is accepted exactly if the queue with it is within them |
| QueueAccepts.OwnShareIsOwn | crates/flowbrake-windows/src/delay_queue.rs:92-104 | A packet whose process holds nothing is turned away only for want of room for everybody |
| QueueAccepts.EnqueuedExactly | crates/flowbrake-windows/src/delay_queue.rs:105-123 | An accepted packet goes to the end of the capture order with the greatest of the wanted deadline and those of its flow, queued or in flight |
| QueueAccepts.LoadsAreCounts | crates/flowbrake-windows/src/delay_queue.rs:92-123 | The four totals the quotas bound are the packets and bytes held, of everybody and of one process |
| QueueFacts.DueIsLeast | crates/flowbrake-windows/src/delay_queue.rs:129-138 | Something is handed out exactly if a deadline has come, and then the least entry under (deadline, sequence) |
| QueueFacts.ReleaseClosedForm | crates/flowbrake-windows/src/delay_queue.rs:162-184 | Each new deadline is the greatest of the in-flight tail and, over the packet and its queued predecessors in the flow, `now` for selected ones and the old deadline for the rest |
| QueueFacts.ReleaseBounds | crates/flowbrake-windows/src/delay_queue.rs:162-184 | A release never delays a packet beyond the later of `now` and its old deadline, and an unselected packet that is not overdue keeps its deadline |
| QueueFacts.ReleaseRetainsExactly | crates/flowbrake-windows/src/delay_queue.rs:162-184 | An unselected packet keeps its deadline if and only if it is not overdue or no selected packet of its flow is ahead; otherwise it gets `now` |
| QueueFacts.ReleasePutsOff | crates/flowbrake-windows/src/delay_queue.rs:162-184 | A release puts an overdue packet it selects behind every packet that was due before it, is not selected and follows no selected one of its flow |
| QueueRuns.RunValid | crates/flowbrake-windows/src/delay_queue.rs:92-184 | Order, tails and quotas hold after any sequence of calls with a clock that never goes back and any release predicates |
| QueueRuns.PopsFollowCapture | crates/flowbrake-windows/src/delay_queue.rs:129-184 | Over any such sequence, releases included, each flow is popped in capture order; equal deadlines are popped in capture order across flows unless the first left exactly at that deadline and a release at the same instant, between the two pops, selected the second |
| QueueRuns.ReleaseReverses | crates/flowbrake-windows/src/delay_queue.rs:162-184 | For any two packets of different flows and any deadlines the exception occurs: pop, release and pop at one instant hand them out in reverse at equal deadlines |
| QueueRuns.ReversedRun | crates/flowbrake-windows/src/delay_queue.rs:162-184 | A concrete such run from the empty queue with the default quotas |
| QueueRuns.PoppedWasQueued | crates/flowbrake-windows/src/delay_queue.rs:129-138 | Whatever is popped later is queued now or captured later |
| QueueRuns.MovedByRelease | crates/flowbrake-windows/src/delay_queue.rs:92-184 | A queued entry is popped at the deadline it has now unless a release comes before its pop |
| QueueRuns.LoweredByRelease | crates/flowbrake-windows/src/delay_queue.rs:162-184 | An entry queued beyond the clock and popped at a deadline the clock had reached was selected by a release at exactly that instant |
| DelayQueues.IntoSortedVec | crates/flowbrake-windows/src/delay_queue.rs:167-168 | Emptying the heap by sequence number yields the queued packets in capture order |
| DelayQueues.DelayQueue.HasFlow | crates/flowbrake-windows/src/delay_queue.rs:88-90 | True exactly if a packet of the flow is queued or in flight |
| DelayQueues.DelayQueue.NextDeadline | crates/flowbrake-windows/src/delay_queue.rs:125-127 | The least queued deadline, absent exactly for an empty queue |
| DelayQueues.DelayQueue.PacketCount | crates/flowbrake-windows/src/delay_queue.rs:186-188 | The number of queued plus in-flight packets |
| DelayQueues.DelayQueue.Enqueue | crates/flowbrake-windows/src/delay_queue.rs:92-123 | Accepts exactly if the queue with the packet is within its four quotas, that is if none of them would be exceeded by what is held; appends with the flow's tail as lower bound; a rejection changes nothing; running counters still equal the recount |
| DelayQueues.DelayQueue.PopDue | crates/flowbrake-windows/src/delay_queue.rs:129-138 | Hands out the least entry under (deadline, sequence) if due and moves it in flight; counters still equal the recount |
| DelayQueues.DelayQueue.Finish | crates/flowbrake-windows/src/delay_queue.rs:140-160 | Removes the packet from the in-flight ones; map entries exist exactly for positive counts afterwards |
| DelayQueues.DelayQueue.ReleaseMatching | crates/flowbrake-windows/src/delay_queue.rs:162-184 | The loop over entries in capture order computes the released queue, with every tail rebuilt |
| Rates.TokenBucket.constructor | crates/flowbrake-core/src/lib.rs:120-127 | A full bucket of two seconds' worth of tokens |
| Rates.TokenBucket.SetRate | crates/flowbrake-core/src/lib.rs:133-139 | The bucket at the new rate, tokens cut to the new burst |
| Rates.TokenBucket.TryConsume | crates/flowbrake-core/src/lib.rs:141-150 | Admits exactly if the refilled bucket covers the bytes, and charges only then |
| Rates.Slot.Consume | crates/flowbrake-windows/src/engine.rs:1054-1064 | Drops exactly what the bucket, set to the current rate and refilled for the elapsed time, does not admit |
| Rates.AdmittedIsEarned | crates/flowbrake-core/src/lib.rs:119-155 | For any calls with changing rates, 0 <= tokens <= 2 rate and bytes admitted + tokens left <= tokens at the start + sum of rate times elapsed |
| Rates.SegmentIsEarned | crates/flowbrake-core/src/lib.rs:119-155 | The same bound for any contiguous part of a longer sequence of calls |
| Rates.ConstantRateBound | crates/flowbrake-core/src/lib.rs:119-155 | At constant rate r, admission from a call at s to a call at t is at most 2r + r(t - s), whatever came before |
| Rates.AdmitsExactly | crates/flowbrake-core/src/lib.rs:133-155 | A packet is admitted if and only if it fits the burst and the tokens kept plus those earned |
| Rates.AfterExactly | crates/flowbrake-core/src/lib.rs:133-155 | What a call leaves: the tokens kept under the new burst plus those earned, cut to the burst and less the packet if it was let through |
| Rates.RejectedRefills | crates/flowbrake-core/src/lib.rs:141-155 | Rejected packets cost nothing: the bucket fills as if nobody had asked |
| Rates.NoStarvation | crates/flowbrake-core/src/lib.rs:141-155 | A packet of at most 2r bytes is admitted once bytes/r seconds have passed without an admission, however many attempts were rejected |
| Rates.OversizedNeverAdmitted | crates/flowbrake-core/src/lib.rs:141-155 | A packet of more than 2r bytes is never admitted at rate r |
| Rates.BandIsEntered | crates/flowbrake-core/src/lib.rs:186-214 | The result is within 5% to 100% of the target if and only if the rate was unset or in the band, or the measurement is neither idle nor within two percent of target; a stale rate otherwise stays |
| Rates.BandIsKept | crates/flowbrake-core/src/lib.rs:186-214 | With a fixed target the rate stays within 5% to 100% of it over any measurements |
| Rates.EffectiveRateInBand | crates/flowbrake-core/src/lib.rs:83-96 | The rate an adaptive rule hands to its bucket is within the band from the first packet on |
| Rates.TargetReached | crates/flowbrake-core/src/lib.rs:186-214 | Measured in [100, 98% of target), the rate is at the target after 62 ticks from an unset rate or anywhere in the band, and stays there |
| Rates.ClimbsNoFaster | crates/flowbrake-core/src/lib.rs:204-213 | 62 is exact: 61 ticks measured between 90% and 98% do not reach the target from 5% |
| RateControl.UnsetRate | crates/flowbrake-core/src/lib.rs:186-195 | An unset rate counts as the target; a target of 0 switches the limit off |
| RateControl.SteadyTick | crates/flowbrake-core/src/lib.rs:197-213 | Idle measurements and those within two percent of the target leave the rate alone |
| RateControl.OverspeedSlows | crates/flowbrake-core/src/lib.rs:201-204 | Above 102% of the target the rate never rises, falls unless it is at 5% of the target, and is otherwise multiplied by exactly 0.3 + 0.7 target / measured |
| RateControl.UnderspeedClimbs | crates/flowbrake-core/src/lib.rs:205-213 | Below 98% of the target the rate rises by 5%, below 90% by 15%, up to the target |
| RateControl.OverspeedIsGeometric | crates/flowbrake-core/src/lib.rs:186-214 | At twice the target or more, n ticks bring the rate to at most the greater of 5% of the target and 0.65^n of what it was |
| RateControl.SevenTicksToTheFloor | crates/flowbrake-core/src/lib.rs:186-214 | Seven such ticks take any rate in the band to 5% of the target, where it stays |
| RateControl.FastClimbIsExact | crates/flowbrake-core/src/lib.rs:186-214 | n ticks measured below 90% multiply the rate by exactly 1.15^n, up to the target |
| RateControl.FastClimbReaches | crates/flowbrake-core/src/lib.rs:186-214 | From 5% of the target that reaches the target if and only if n is at least 22 |
| LossSampling.MixIsBijective | crates/flowbrake-windows/src/engine.rs:907-911 | The output function has an inverse on 64-bit words |
| LossSampling.PeriodReachesAll | crates/flowbrake-windows/src/engine.rs:906 | Every state is reached from every state within 2^64 steps |
| LossSampling.PeriodRepeatsNone | crates/flowbrake-windows/src/engine.rs:906 | No state is reached twice within 2^64 steps |
| LossSampling.StateAfterSteps | crates/flowbrake-windows/src/engine.rs:906 | The closed form of the state after k samples is what k advances give |
| LossSampling.LossSampler.ShouldDrop | crates/flowbrake-windows/src/engine.rs:898-914 | 0 never drops and 10000 always drops, both without advancing; otherwise the state advances and its output decides |
| LossSampling.DecisionMonotone | crates/flowbrake-windows/src/engine.rs:898-914 | For a fixed state, what a lower rate drops a higher rate drops too, from never at 0 to always at 10000 |
| LossSampling.ExactLossRate | crates/flowbrake-windows/src/engine.rs:896-914 | Any 2^64 consecutive samples at 0 < bp < 10000 drop exactly ceil(bp 2^64 / 10000) packets |
| LossVectors.FirstOutput | crates/flowbrake-windows/src/engine.rs:896-914 | The first output for the seed 0 is the reference value of SplitMix64, which fixes its shifts and constants, and decides at 8833 and 8834 basis points |
| Packet.Ipv6TransportOffset | crates/flowbrake-windows/src/packet.rs:135-161 | The loop over extension headers terminates in bounds and computes the walk |
| PacketLayout.WalkFollowsChain | crates/flowbrake-windows/src/packet.rs:135-161 | The walk over any written chain of extension headers ends at its end with the final kind |
| PacketLayout.WalkFindsChain | crates/flowbrake-windows/src/packet.rs:135-161 | Whatever the walk passes over is such a chain |
| PacketLayout.Ipv6RoundTrip | crates/flowbrake-windows/src/packet.rs:95-133 | For every chain of Hop-by-Hop, Routing, Fragment, Destination and Authentication headers before a TCP or UDP header, parsing recovers addresses, ports, flow and payload length |
| PacketLayout.Ipv6Accepted | crates/flowbrake-windows/src/packet.rs:95-133 | Every accepted packet is such a layout, and the result is its meaning |
| PacketLayout.SameFlow | crates/flowbrake-windows/src/packet.rs:33-41 | Two packets of either family get the same flow key exactly if family, both addresses, the transport and both ports agree, whatever options or extension headers they carry |
| PacketLayout.Ipv4RoundTrip | crates/flowbrake-windows/src/packet.rs:59-93 | The same round trip for IPv4 with options |
| PacketLayout.Ipv4Accepted | crates/flowbrake-windows/src/packet.rs:59-93 | Every accepted packet with a header length of at least five words is such a layout |
| PacketLayout.ShortIpv4HeaderAccepted | crates/flowbrake-windows/src/packet.rs:59-93 | Header lengths of zero to four words are accepted exactly if the transport header fits behind them, and the ports are then read from within the fixed IP header |
| PacketLayout.ShortIpv4HeaderExists | crates/flowbrake-windows/src/packet.rs:59-93 | For each of these header lengths and each transport there is an accepted packet |
| PacketLayout.ParsedFits | crates/flowbrake-windows/src/packet.rs:163-187 | On success, for any bytes, headers plus payload are exactly the stated length, which the bytes cover |
| Settings.AppendRuleLines | crates/flowbrake-ui/src/settings.rs:309-338 | Appends one line per field that is set, and nothing for an empty rule other than the global one |
| Settings.WriteSettings | crates/flowbrake-ui/src/settings.rs:172-209 | The text of the settings, section by section |
| Settings.ReadSettings | crates/flowbrake-ui/src/settings.rs:70-161 | The settings any text stands for: later lines win, unknown lines are skipped, bad values are ignored |
| SettingsKeys.RuleLine | crates/flowbrake-ui/src/settings.rs:130-158 | Whatever was read before, a line for one of the ten fields of a rule, spelled out, changes exactly that field of that rule to what its value says and nothing else; any other field text changes nothing |
| SettingsKeys.SettingLine | crates/flowbrake-ui/src/settings.rs:84-129 | A line with any key outside the rules changes exactly the setting that the nine spelled-out keys name, to what its value says; an unknown key changes nothing |
| SettingsKeys.SkippedLine | crates/flowbrake-ui/src/settings.rs:74-81 | Blank lines, comments and lines without `=` change nothing |
| SettingsKeys.DotlessLine | crates/flowbrake-ui/src/settings.rs:139-142 | A key that begins with `rule.` but has no further dot is ignored |
| SettingsKeys.NamelessLine | crates/flowbrake-ui/src/settings.rs:143-146 | So is one without a name before the last dot |
| SettingsFile.EmptyFile | crates/flowbrake-ui/src/settings.rs:40-56 | The settings of an empty file |
| SettingsFile.LastRuleLine | crates/flowbrake-ui/src/settings.rs:70-161 | For any file, one more line for a rule field, with either line ending or none, changes exactly that field of that rule of the settings read |
| SettingsFile.LastSettingLine | crates/flowbrake-ui/src/settings.rs:70-161 | For any file, one more line with any other key changes exactly the setting it names |
| SettingsFile.LastSkippedLine | crates/flowbrake-ui/src/settings.rs:70-161 | For any file, one more blank line, comment or line without `=` changes nothing |
| SettingsFile.ExpandedMeans | crates/flowbrake-ui/src/settings.rs:121-128 | The expanded programs are the names between the commas, trimmed, in lower case, empty ones left out |
| SettingsFile.NumberMeans | crates/flowbrake-ui/src/settings.rs:260-262 | Exactly the decimal numerals up to the bound, with an optional plus sign and any leading zeros, are read, each as its number |
| SettingsFile.DownloadLossFile | crates/flowbrake-ui/src/settings.rs:290-293 | A file with one line sets the download loss and nothing else |
| SettingsFile.RuleLinesAre | crates/flowbrake-ui/src/settings.rs:309-338 | The lines written for a rule, spelled out |
| SettingsFile.HeaderLinesAre | crates/flowbrake-ui/src/settings.rs:172-190 | The lines every file begins with, spelled out |
| SettingsRoundTrip.ParseOfShown | crates/flowbrake-ui/src/settings.rs:268-307 | The written fields of any rule in range are read as that rule, unset fields included |
| SettingsRoundTrip.RoundTrip | crates/flowbrake-ui/src/settings.rs:70-209 | Writing settings with any number of dotted names, in any order, and reading them gives the same settings |
| SettingsRoundTrip.NoRuleNamedGlobal | crates/flowbrake-ui/src/settings.rs:150-158 | No text gives a rule for the name `global` |
| SettingsRoundTrip.RoundTripExactly | crates/flowbrake-ui/src/settings.rs:70-209 | Settings with a place in the file are read back if and only if they have no rule named `global` |
| SettingsLoaded.GlobalRuleIsLost | crates/flowbrake-ui/src/settings.rs:131-158 | Settings with a place in the file and a rule named `global` that are not read back |
| SettingsLoaded.LoadedIsWritable | crates/flowbrake-ui/src/settings.rs:70-161 | Whatever text is read, names, ranges and window sizes of the result have a place in the file |
| SettingsLoaded.LoadSaveLoad | crates/flowbrake-ui/src/settings.rs:59-170 | Loading any text, saving it and loading it again changes nothing |

## Left out

- Panics anywhere but in the sender's `io.send`: a panic in the receive worker loses the packet in its hand uncounted, so that step is not part of the machine.
- `recv_loop` and `send_loop` are program points of the step machine rather than Dafny loops, because other threads step between their statements; the rule tables, the queue, the buckets and the sampler they update are classes or methods.
- The receive worker's buckets and sampler enter the step machine as an arbitrary verdict per packet; their own behaviour is in `Rates.dfy` and `LossSampler.dfy`.
- Attribution of a packet to a process: port tables, their refresh and the cache of unresolved ports are an arbitrary value fixed at capture, as is whether IPv6 traffic is charged.
- The binary heap is a set whose peek is the least entry under the code's order; the array layout of the heap is not modelled.
- Rounding of floating-point numbers and of `Instant`, saturation of time arithmetic and wrap-around of the 64-bit counters, revision and sequence number.
- The text of the last engine error, mutex poisoning, failures to spawn a thread, and a second start after a stop: a run begins where `start_with_io` has reset everything.
- Delays of the operating system after a timeout has expired or a notification was sent; a wake-up is an action that may happen at any time.
- DuePacketGetsItsTurn: counted between releases, because a release puts an overdue packet it selects behind packets that became due before the release (`QueueFacts.ReleasePutsOff`).
- Several rule edits, snapshots or stops under way at once: the program has one UI thread, so the machine has one of each.
- The socket filter installed beside packet blocking, elevation, process enumeration and icons.
- The average over recent speed samples, speed and limit formatting, and the text fields of the UI: small members that would dilute the core.
- Sorting of names in the settings file: the round trip is stated for names listed in any order, of which sorted order is one. Lower casing and the text of floating-point numbers are parameters; `SettingsLoaded.AssumptionsAreMet` gives values that satisfy what is assumed of them, and NaN is not modelled.
- Ports of non-first fragments: the parser reads whatever follows the fragment header, and so does the model.
