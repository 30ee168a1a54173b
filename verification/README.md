# Verified models of the bounded channels

A Dafny model of the crate's four lock-free channels and of their parking layer, with proofs that hold for
every interleaving, every number of producers, every capacity and every number of laps of the rings.

The models come in two forms that are tied together.

* **Machines.** `MpscMachine`, `SpscMachine` and `SpscPark` are transition systems in which one move is one access
  to shared memory (a load, a store, a read-modify-write, one slot access, one critical section of a mutex).
  Spurious failures of `compare_exchange_weak`, spurious returns from a park, unparks by other code and callbacks
  that unwind are moves too. Safety is an inductive invariant, and the guarantees are lemmas about every
  reachable state and every run. `MpscBuffered` and `SpscBuffered` put the same rings on store buffers (total store
  order): there every store waits in its thread's buffer, and only a `SeqCst` fence, a lock or a read-modify-write
  waits for the buffer.
* **Code.** `Mpsc.Channel`, `Spsc.Channel` and `Sharded.Receiver` are classes with the fields and slot arrays of the
  original. Each atomic access is one method that updates the object in place; the operations are written with
  those accesses and with the loops of the original (`seq & mask` and `seq >> shift` included). Between any two
  accesses the other threads run, by any finite schedule of their moves (`clock` counts off what has run), and every
  access extends `run`, which is proved to be a run of the machine. So each operation is proved against the machine,
  and what is proved of the machine's reachable states is used at the very state in which an operation decides
  its outcome. For the empty schedule, in which nobody else runs, the contracts say which outcome it is.

| file | what it models |
|---|---|
| `Arith.dfy` | `usize`, saturation, the `as i64` cast, mask and shift as remainder and quotient |
| `MpscMachine.dfy`, `MpscInvariant.dfy` | the MPSC ring: moves, and the invariant on head, claim, rounds, slots and in-flight sequences |
| `MpscWake.dfy` | the parking invariant of the MPSC ring: `Parker` with N concurrent wakers, `WaiterList` |
| `MpscTheorems.dfy`, `MpscArrival.dfy` | what follows in every run, and that owed wakes arrive |
| `MpscWitnesses.dfy` | runs that show where less holds than one may expect |
| `MpscThreads.dfy`, `Mpsc.dfy` | what a thread may rely on while others run, and the operations as code |
| `SpscMachine.dfy`, `SpscInvariant.dfy`, `SpscTheorems.dfy`, `Spsc.dfy` | the same for the SPSC ring and its data |
| `MpscBuffered.dfy`, `MpscBufferedInvariant.dfy`, `MpscBufferedTheorems.dfy` | the whole MPSC ring on store buffers, and its refinement of `MpscMachine` |
| `SpscPark.dfy`, `SpscParkInvariant.dfy`, `SpscParkTheorems.dfy`, `SpscParkWitnesses.dfy` | the SPSC park protocol on a machine with store buffers |
| `SpscBuffered.dfy`, `SpscBufferedInvariant.dfy`, `SpscBufferedTheorems.dfy` | that machine with the payload slots: the data on store buffers |
| `Fairness.dfy`, `Sharded.dfy` | the sticky cursor as arithmetic, and the sharded receiver over `Spsc.Channel` objects |

### Which lines a move stands for

| moves | lines |
|---|---|
| `MpscMachine`: `CheckRx`, `LoadClaim`, `LoadHead`, `Cas`, `Write`, `Publish` | src/mpsc.rs:171, 177, 190, 195, 214, 219-220 |
| `PushList`, `SetWaiting`, `ReloadClaim`, `ReloadHead`, `ReloadRx`, `Park` | src/notify.rs:78-79, src/mpsc.rs:249, 250, 252, 258 |
| `WakeLoad`, `WakeClear`, `WakeTake`, `WakeUnpark` | src/notify.rs:50, 51, 52, 53 |
| `Probe`, `ProbeSenders`, `ProbeAgain`, `Take`, `StoreHead` | src/mpsc.rs:288, 289, 292, 300-303, 304 |
| `Spin`, `PrepSlot`, `PrepFlag`, `RecheckRound`, `RecheckSenders`, `Cancel`, `Parked`, `ClearFlag` | src/mpsc.rs:344-349, src/notify.rs:32-33, src/mpsc.rs:356, 357, src/notify.rs:38, 43, 44 |
| `DrainLoad`, `DrainTake`, `Callback`, `DrainStore` | src/mpsc.rs:406, 410-411, 413, 381-388 |
| `SetRxDropped`, `SwapWaiting`, `LockList`, `UnparkAll` | src/mpsc.rs:442, src/notify.rs:90, 91, 92 |
| `CloneSender`, `DropSender`, `Reap` | src/mpsc.rs:270, 433, 99-115 |
| `SpscMachine`: `CheckGone`, `ReloadHead`, `Write`, `StoreTail` | src/spsc.rs:104, 108, 115-118, 120 |
| `ReloadTail`, `LoadGone`, `ReloadAgain`, `Take`, `StoreHead` | src/spsc.rs:170, 172, 175, 187-188, 190 |
| `DrainReload`, `DrainTake`, `Callback`, `DrainStore`, `StoreGone`, `StoreClosed` | src/spsc.rs:229, 235-236, 238, 209-216, 284, 293 |
| `MpscBuffered`: the moves of `MpscMachine`, and the landing of a store; the fences are where a step waits for the buffer | src/mpsc.rs:222, 248, 355, 425, 434, 443 |
| `SpscBuffered`: the moves of `SpscPark`, and `WriteSlot`, `ReadSlot` | src/spsc.rs:115-117, 187 |
| `SpscPark`: the same loads and stores of the counters and flags, the fences at src/spsc.rs:122, 148, 192, 242, 266, 285, 294, and the parker | src/notify.rs:31-56 |

## Where the code does less than its documentation says

* docs/design.md:492-497 says that a send which saw `rx_dropped == false` completed while the receiver was live.
  It may still claim and publish after the receiver is gone (`SendAfterReceiverIsGone`, at the very exchange). The condition is the flag
  at the call's own check: a payload is accepted only if that load found it down (`AcceptedMeansSeen`), so a send that
  begins after the drop is always rejected (`LateSendIsRejected`, and the contracts of `TrySend` and `Send`). A late
  payload is dropped by `Shared::drop`, once (`EveryPayloadEndsOnce`).
* docs/design.md:587-590 says that after a panic in `drain`'s callback a parked producer wakes on the next normal
  operation. If the drain emptied the ring and the receiver then blocks in `recv`, both sides sleep for good
  (`UnwoundDrainCanDeadlock`; on the SPSC ring `UnwoundDrainStrandsBoth`). The condition is exact: a sleeping producer that could
  proceed is about to be woken if and only if the latest head was not stored by an unwinding drain (`skipped` in
  `ProducerWakeupIsNotLost` and `WakeupIsNotLost`). Conservation holds with unwinding callbacks as well.
* `Empty` of the MPSC ring is exact in claim order only: a whole `try_recv` that begins after a later sender's `Ok` can
  return it (`EmptyAfterAnotherOk`).
  `EmptyIsExact` says precisely when.
* `Full` of the MPSC ring means a full lap of claims, or claims at `usize::MAX` (`FullMeansFullLap`). The second case is
  the saturating bound. It makes an empty ring look full, and then both sides can sleep for good without any
  unwinding (`SaturationCanDeadlock`, by a run of that many sends); so `NeverBothAsleep` asks for a head below it.
* The fairness bound of the sharded receiver is one of `try_recv` and `recv`, and it is reached (`WaitToTheBound`). Drains can leave the cursor on one shard for
  ever (`StarveByDrains`). With a callback that returns this happens exactly for `max` up to the capacity of a shard
  (`DrainStaysExactlyWhen`); above it every shard is visited within `n - 1` drains (`DrainReachesAll`).

## Model

| member | source | states |
|---|---|---|
| Arith.SlotAndRoundDecompose | src/mpsc.rs:131-137 | a sequence is `round * cap + slot`, for every capacity |
| Arith.SlotsDifferWithinALap | src/mpsc.rs:91-97 | two sequences less than a lap apart never share a slot |
| Arith.NextLap | src/mpsc.rs:66-71 | the next occupant of a slot waits on exactly the round that its predecessor published |
| Arith.CastIsInjective | src/mpsc.rs:219-220 | the `as i64` cast keeps different rounds different over all of `usize` |
| Arith.TagIsFresh | src/mpsc.rs:279-282 | no sequence looks published because of its predecessor's round or the never-published mark, at any capacity |
| Arith.TagIsNeverTheMark | src/mpsc.rs:219-220 | a sequence that can be claimed never casts to -1, capacity 1 included |
| Arith.TagOfMaxIsTheMark | src/mpsc.rs:187-198 | the saturating bound is needed for that: `usize::MAX` itself would cast to -1 at capacity 1 |
| Arith.ShiftIsRound | src/mpsc.rs:131-137 | `seq >> shift` is the quotient by the capacity |
| Arith.MaskIsSlot | src/mpsc.rs:211 | `seq & mask` is the remainder by the capacity |
| MpscInvariant.InvStep | src/mpsc.rs:91-97 | every move of every thread keeps the invariant on head, claim, rounds, slots, in-flight sequences, handles, delivery and payload fates |
| MpscInvariant.WalkVisits | src/mpsc.rs:99-115 | the walk of `Shared::drop` visits exactly the sequences from the shared head to the claim counter |
| MpscInvariant.WalkStops | src/mpsc.rs:104-113 | at the claim counter the walk stops, on a completely full ring too |
| MpscWake.WakeStep | src/notify.rs:31-95 | every move keeps the parking invariant: a registered receiver can be found, its missed events are owed, and so are those of every listed producer, even when a delayed waker clears the flag of a later round |
| MpscTheorems.NoFault | src/mpsc.rs:187-220 | in every run: no read of empty memory, no overwritten payload, no overflow, `head <= private head <= claim <= head + cap`, `claim <= usize::MAX` |
| MpscTheorems.SlotsAreExclusive | src/mpsc.rs:211-220 | two producers in flight, or a producer and the receiver, never touch one slot; writers find it empty and the reader finds it full |
| MpscTheorems.RoundsAreExact | src/mpsc.rs:66-71 | for every sequence of the current lap the slot's round is the sequence's own exactly when it has been published, and otherwise the one before (or -1) |
| MpscTheorems.RefinesBoundedFifo | src/mpsc.rs:177-220 | every move is a step of a FIFO queue of at most `cap` payloads: the winning exchange appends its own call's payload, the receiver's read takes the oldest, and no other move changes it |
| MpscTheorems.DeliveryIsMonotone | src/mpsc.rs:286-307 | along a run delivered payloads and won claims are never taken back or reordered |
| MpscTheorems.DeliveredIsPrefixOfLog | src/mpsc.rs:286-307 | through any mix of `try_recv` and `drain`, delivered payloads are the won claims in order without gaps |
| MpscTheorems.ProducerOrderIsKept | src/mpsc.rs:177-220 | of two payloads of one producer the one offered first is delivered first |
| MpscTheorems.FullIsExact | src/mpsc.rs:189-193 | when `Full` is decided the claims are at the bound, and the call has claimed nothing and changed no slot |
| MpscTheorems.FullMeansFullLap | src/mpsc.rs:187-193 | `Full` is decided if and only if the claims are a full lap ahead of the true head, or at `usize::MAX` |
| MpscTheorems.WonClaimIsWithinTheLap | src/mpsc.rs:195-200 | a compare-exchange that wins is within the lap of the true head, however stale the cached head is, and does not overflow |
| MpscTheorems.RetriesAreBounded | src/mpsc.rs:177-210 | a call loses at most `cap` plus the head's advance during the call compare-exchanges to other producers |
| MpscTheorems.LostCasRaisesSequence | src/mpsc.rs:202-207 | each of those losses strictly raises the sequence that is tried next |
| MpscTheorems.EmptyIsExact | src/mpsc.rs:279-296 | the receiver's slot looks unpublished if and only if the queue is empty or the winner of its oldest claim has not published |
| MpscTheorems.EmptyFollowsDecision | src/mpsc.rs:286-296 | of all moves inside a receive that has taken nothing, exactly two end it without a payload: the look at `senders` that finds some, in a call that does not block, and the second probe that finds nothing after none were left, when everything accepted has been delivered |
| MpscTheorems.SendersCountsHandles | src/mpsc.rs:268-276 | `senders` is the number of live handles in every state |
| MpscTheorems.DisconnectedIsLossless | src/mpsc.rs:288-294 | after `Disconnected`: no handle, no call in flight, and everything ever accepted has been delivered |
| MpscTheorems.DisconnectedIsFinal | src/mpsc.rs:286-307 | and it stays so for ever: nothing is accepted, nothing is published, every later probe fails again |
| MpscTheorems.PayloadsAreConserved | src/mpsc.rs:169-226 | in every state each payload is in exactly one place: one call's hands, handed back once, or in the log once |
| MpscTheorems.EveryPayloadEndsOnce | src/mpsc.rs:99-115 | when the channel is gone every payload has been handed back, delivered or dropped, exactly once, whatever unwound or raced |
| MpscTheorems.DrainIsBounded | src/mpsc.rs:374-419 | at every point of a drain the count is the private head's lead, at most `max` and at most `cap`, while producers refill |
| MpscTheorems.ConsumerWakeupIsNotLost | src/notify.rs:31-56 | a receiver asleep without a token although its slot is published or no sender is left is still owed an unpark by a thread past its publish, with its handle registered or taken |
| MpscTheorems.ProducerWakeupIsNotLost | src/notify.rs:77-95 | a producer asleep without a token although there is room or the receiver is gone is about to be unparked by a running `wake_all` if and only if the last head advance was not an unwound drain |
| MpscTheorems.NeverBothAsleep | src/mpsc.rs:228-368 | receiver and producer never both sleep on a full ring, nor at all unless a drain has unwound, while no third thread is mid-send or mid-wake and able to move (below saturation) |
| MpscTheorems.StuckOnlyWhenWaiting | src/mpsc.rs:228-368 | if nothing in the system can move, every sleeper waits for something that has not happened |
| MpscTheorems.NobodyLeftAsleep | src/notify.rs:89-95 | outside a wake, and unless a drain has unwound, no producer that could proceed sleeps without a token |
| MpscTheorems.AcceptedMeansSeen | src/mpsc.rs:171-173 | a payload is accepted in a run only if its call has loaded the receiver's flag while it was down |
| MpscTheorems.LateSendIsRejected | src/mpsc.rs:440-446 | a payload offered after the receiver is gone is never accepted, in any continuation of the run |
| MpscArrival.OwedWakeArrives | src/notify.rs:49-56 | from any moment at which the receiver sleeps although it could proceed, at most four moves of waking threads alone hand it the token, whoever holds the slot lock |
| MpscArrival.OwedUnparkArrives | src/notify.rs:89-95 | from any moment at which a producer sleeps although it could proceed, the receiver alone hands it the token within as many moves as there are handles to unpark, and two more |
| MpscWitnesses.UnwoundDrainCanDeadlock | src/mpsc.rs:379-418 | a run of a one-slot ring in which a drain unwinds and then both sides sleep for good |
| MpscWitnesses.SaturationCanDeadlock | src/mpsc.rs:187-193 | a run of `usize::MAX` sends and receives after which both sides sleep on an empty ring for good, with no unwinding |
| MpscWitnesses.EmptyAfterAnotherOk | src/mpsc.rs:286-296 | a reachable state with the receiver at rest, sequence 1 published by a sender that is back from `Ok` and sequence 0 claimed but not published, from which a whole `try_recv`, run alone, returns `Empty` |
| MpscWitnesses.SendAfterReceiverIsGone | docs/design.md:492-497 | a reachable state with the receiver gone, its flag up and nothing claimed, in which an exchange wins a claim; the run from there ends with the caller back from `Ok` and its payload published for nobody |
| MpscBufferedInvariant.InvStep | docs/design.md:319-345 | with every store buffered, each move of a thread and each landing of a store keeps both invariants of the ring, read at the moments at which the stores land |
| MpscBufferedTheorems.RefinesInterleaving | docs/design.md:319-345 | with its fences the ring on store buffers makes only moves of the interleaving machine, but for loads that return an old value of the two stores no fence follows: a withdrawn flag, and the head of an unwound drain |
| MpscBufferedTheorems.NoFault | src/mpsc.rs:187-220 | on store buffers: no read of empty memory, no overwritten payload, no overflow, the head in memory at most behind |
| MpscBufferedTheorems.WritesLandInEmptySlots | src/mpsc.rs:211-220 | when a slot write reaches memory its slot is empty, of the round before, and claimed by that thread for that payload |
| MpscBufferedTheorems.SlotIsReady | src/mpsc.rs:299-303 | the slot to be read holds the next payload of the claim order, in memory |
| MpscBufferedTheorems.DeliveredIsPrefixOfLog | src/mpsc.rs:286-307 | on store buffers deliveries are the won claims in order without gaps |
| MpscBufferedTheorems.DisconnectedIsLossless | src/mpsc.rs:288-294 | on store buffers, after `Disconnected`, no handle is left and everything accepted has been delivered |
| MpscBufferedTheorems.ConsumerWakeupIsNotLost | src/mpsc.rs:221-224 | on store buffers, with any number of wakers: a receiver asleep without a token although its slot is published, in memory or in a buffer, or no sender is left, will be found and unparked by a thread inside its wake |
| MpscBufferedTheorems.ProducerWakeupIsNotLost | src/mpsc.rs:246-260 | on store buffers: a producer asleep without a token although there is room, or nobody to wait for, by stores that need not have landed, is about to be unparked if and only if the latest head was not stored by an unwound drain |
| MpscBufferedTheorems.NeverBothAsleep | src/mpsc.rs:228-368 | on store buffers: receiver and producer never both sleep on a full ring, nor at all unless a drain has unwound, while no third thread in a send or a wake can move or has a store that can land (below saturation) |
| MpscThreads.ForeignLeavesAlone | src/mpsc.rs:91-97 | between two accesses of one thread no move of another changes its handle's cache, its own head, the shared head under a receiver, or where its payload went |
| Mpsc.Channel.constructor | src/mpsc.rs:118-153 | a new channel of capacity `2^shift` is in an initial state of the machine |
| Mpsc.Channel.CompareExchangeWeak | src/mpsc.rs:195-208 | one atomic exchange: it wins exactly when the counter is unchanged and it does not fail spuriously, and then the log gains the claim |
| Mpsc.Channel.ClaimSequence | src/mpsc.rs:177-210 | the claim loop ends for every schedule, with a sequence that was within the lap of the true head at the winning access, or with `Full` on a full lap |
| Mpsc.Channel.PublishAndWake | src/mpsc.rs:211-224 | after slot write, round store and wake the payload is accepted under its sequence, logged for its thread, and visible until taken |
| Mpsc.Channel.WakeConsumer | src/notify.rs:49-56 | `Parker::wake` ends, or is held up by the handle lock alone; afterwards a receiver that sleeps although it could proceed is owed its wake by another thread |
| Mpsc.Channel.TrySend | src/mpsc.rs:169-226 | each outcome was right at one state within the call: room on `Ok`, a full lap on `Full`, a dropped receiver on `Disconnected`, which a flag that was up at the start forces; errors return the payload; after `Ok` no receiver is left asleep unowed. With nobody else running the flag and the counters at the start decide the outcome, and the log gains the payload or nothing |
| Mpsc.Channel.Send | src/mpsc.rs:230-265 | a blocking send never returns `Full`, and a receiver gone at the start forces `Disconnected`; it ends without a result only when the whole schedule has run and it cannot go on: after an attempt that found a full lap, with the ring full now, the list locked by an unparking receiver, or asleep with its wake owed. With nobody else running the flag and the counters at the start decide the outcome |
| Mpsc.Channel.WaitForRoom | src/mpsc.rs:246-260 | the Park arm: register, re-check, and sleep only with the handle listed; it comes back to the same payload |
| Mpsc.Channel.TryRecv | src/mpsc.rs:286-307 | the oldest undelivered payload of the log, with every producer that could proceed woken, if the slot was published at the start; `Empty` only if at one state of the call nothing was ready and a sender was there, so never with no sender at the start; `Disconnected` exactly when the receiver then knows for ever, with everything delivered. With nobody else running the slot and `senders` at the start decide |
| Mpsc.Channel.SpinBeforePark | src/mpsc.rs:343-353 | the receiver looks at its slot 16 times before it goes on to register |
| Mpsc.Channel.Recv | src/mpsc.rs:310-368 | a blocking receive never returns `Empty`; a slot published, or no sender, at the start forces a result; it ends without one only when the whole schedule has run and it cannot go on: after an attempt that found nothing and a sender, with nothing there now, the handle slot locked, or asleep with its wake owed |
| Mpsc.Channel.Drain | src/mpsc.rs:374-420 | the loop ends within `cap` items while producers refill; the items are the next ones of the log; it ends at the first call of the callback that unwinds and is `unwound` exactly then; the head is published even so, and otherwise every producer that could proceed has been woken; short of `max` nothing more was ready |
| Mpsc.Channel.WakeProducers | src/notify.rs:89-95 | `wake_all` ends for every schedule, and then no producer that could proceed sleeps without a token |
| Mpsc.Channel.CloneHandle | src/mpsc.rs:268-276 | a clone is one more counted handle with an empty cache |
| Mpsc.Channel.DropSender | src/mpsc.rs:431-438 | one handle and one sender less; after the last one no sender is left, and the receiver is not asleep, has its token, or is owed its wake by another thread |
| Mpsc.Channel.DropReceiver | src/mpsc.rs:440-446 | after the drop the flag is up, every producer asleep in `send` has its token, and nothing more was delivered |
| Mpsc.Channel.WalkSlots | src/mpsc.rs:104-113 | the in-place walk collects exactly the accepted, undelivered payloads in order |
| Mpsc.Channel.DropShared | src/mpsc.rs:99-115 | afterwards every payload is among the returned, delivered and dropped ones, and their numbers add up |
| SpscInvariant.InvStep | src/spsc.rs:102-196 | every move of either side keeps the invariant on counters, caches, slots, delivery and payload fates |
| SpscTheorems.NoFault | src/spsc.rs:102-120 | `cached_head <= head <= private head <= cached_tail <= tail <= cached_head + cap` in every state, so no subtraction underflows and no slot access is wrong |
| SpscTheorems.SlotsAreExclusive | src/spsc.rs:113-120 | the slot to be written is empty and the slot to be read holds the oldest payload |
| SpscTheorems.RefinesBoundedFifo | src/spsc.rs:102-196 | with stale caches on both sides, every move is a step of a FIFO queue of at most `cap` payloads: the tail store appends the call's payload, the read takes the oldest, nothing else changes it |
| SpscTheorems.WriteLogsOwnPayload | src/spsc.rs:113-120 | the payload that the tail store publishes is the one the same call has written |
| SpscTheorems.DeliveredIsPrefixOfLog | src/spsc.rs:167-196 | delivered payloads are the accepted ones in order without gaps |
| SpscTheorems.FullIsExact | src/spsc.rs:107-112 | an attempt ends with `Full` exactly at a reload of the head with the queue it bounds full, by no other move however stale the cache; and an attempt that goes on has true room |
| SpscTheorems.EmptyIsExact | src/spsc.rs:169-182 | emptiness is decided exactly at a reload of the tail with the queue empty, by no other move however stale the cache; and a read always finds something |
| SpscTheorems.EmptyFollowsDecision | src/spsc.rs:172-182 | `try_recv` ends without a payload exactly when the flag load after that decision finds it down, or the second reload finds the queue empty and the sender gone |
| SpscTheorems.DisconnectedIsLossless | src/spsc.rs:172-178 | after `Disconnected` the sender is gone and everything accepted has been delivered |
| SpscTheorems.DisconnectedIsFinal | src/spsc.rs:172-178 | and it stays so along the rest of every run |
| SpscTheorems.EveryPayloadEndsOnce | src/spsc.rs:40-51 | when both handles are gone every payload has been handed back, delivered or dropped, exactly once |
| SpscTheorems.DrainIsBounded | src/spsc.rs:202-240 | a drain is never more than `cap` ahead of the shared head |
| Spsc.Channel.TrySend | src/spsc.rs:102-120 | on `Ok` the payload is the newest of the log and published; an error returned it, left the log alone, and was right at one state of the call; never `Full` with room at the start, always `Disconnected` with the flag up at the start |
| Spsc.Channel.Send | src/spsc.rs:130-145 | a blocking send never returns `Full` and accepts or returns its payload once; a flag up at the start forces `Disconnected`; it ends without a result only when the whole schedule has run and the ring is full now with the receiver there |
| Spsc.Channel.TryRecv | src/spsc.rs:167-190 | the oldest undelivered payload; never `Empty` if something was there at the start, nor if the flag was up; `Disconnected` only when all is delivered, and for ever after, and always if the sender was gone with nothing left; with a quiet sender the tail and the flag at the start decide |
| Spsc.Channel.Recv | src/spsc.rs:250-263 | a blocking receive never returns `Empty`; something there, or the flag up, at the start forces a result; it ends without one only when the whole schedule has run and the ring is empty now with the flag down |
| Spsc.Channel.Drain | src/spsc.rs:202-240 | the loop ends within `cap` items; it ends at the first call of the callback that unwinds and is `unwound` exactly then; short of `max` everything published before the call has been delivered; the head is published when the callback unwinds |
| Spsc.Channel.DropSender | src/spsc.rs:284 | the flag goes up after everything accepted is in the log |
| Spsc.Channel.DropReceiver | src/spsc.rs:293 | the flag goes up and nothing more is delivered |
| Spsc.Channel.DropShared | src/spsc.rs:40-51 | the walk over `head..tail` drops exactly what was accepted and not delivered |
| SpscParkInvariant.InvStep | src/notify.rs:31-56 | with every store buffered, each move of either side, of a buffer or of other code keeps the parking invariant |
| SpscParkTheorems.WakeupIsNotLost | docs/design.md:319-345 | on store buffers: a sleeper whose wait is over, even by a store still in the peer's buffer, can be found by the peer and will be woken: a receiver always, a sender if and only if the latest head was not stored by an unwound drain |
| SpscParkTheorems.NeverBothAsleep | src/spsc.rs:146-156 | the two sides sleep at once only on an empty ring after an unwound drain |
| SpscParkTheorems.OccupancyIsBounded | src/spsc.rs:107-120 | whatever is buffered, the occupancy stays between 0 and `cap` and each side's view lies between |
| SpscParkTheorems.OwedWakeArrives | src/notify.rs:49-56 | from any such moment the waker alone, by a bounded number of its own moves, hands the sleeper its token |
| SpscParkWitnesses.WithoutFencesAWakeupIsLost | src/spsc.rs:120-124 | without the fences there is a run that leaves the receiver asleep beside an item for good |
| SpscParkWitnesses.WithoutTheDrainAtTheLockAWakeupIsLost | src/notify.rs:49-56 | with the fences, but with a lock that does not wait for the buffer, a late `parked = false` does the same |
| SpscParkWitnesses.UnwoundDrainStrandsSender | src/spsc.rs:240-244 | a drain that unwinds can leave the sender asleep beside a free slot, fences and locks as they are |
| SpscParkWitnesses.UnwoundDrainStrandsBoth | src/spsc.rs:240-244 | and, having emptied the ring, both sides asleep with neither able to move |
| SpscBufferedInvariant.InvStep | src/spsc.rs:113-120 | with the slot writes in the sender's buffer, each move and each landing keeps the alternation of slot writes and tail stores on their way to memory, fences or not |
| SpscBufferedTheorems.RefinesPark | src/spsc.rs:120-124 | every state of the ring on store buffers shows a reachable state of `SpscPark`, so no wakeup is lost here either |
| SpscBufferedTheorems.TailFollowsSlots | src/spsc.rs:113-120 | the tail in memory never runs ahead of the slots in memory, nor the sender a lap ahead of the head in memory |
| SpscBufferedTheorems.SlotIsReady | src/spsc.rs:185-188 | the slot to be read holds the oldest payload, in memory |
| SpscBufferedTheorems.SlotsAreExclusive | src/spsc.rs:113-118 | no slot write still in the buffer goes to a slot that holds an unread payload |
| SpscBufferedTheorems.ReceivedIsPrefixOfLog | src/spsc.rs:167-196 | what the receiver has read from memory is the beginning of what the sender has written, in order |
| SpscBufferedTheorems.RefinesBoundedFifo | src/spsc.rs:102-196 | on store buffers the ring is a FIFO queue of at most `cap` payloads: a tail store that lands appends the next payload, a read takes the oldest, nothing else changes it |
| SpscBufferedTheorems.EmptyIsExact | src/spsc.rs:169-171 | the receiver's test against the tail in memory holds if and only if that queue is empty |
| SpscBufferedTheorems.DisconnectedIsLossless | src/spsc.rs:172-178 | with the flag an ordinary buffered store: if the second load of the tail still finds the head, everything ever written has been read |
| SpscBufferedTheorems.DisconnectedIsFinal | src/spsc.rs:172-178 | and in no continuation of the run is anything more written or read |
| SpscBufferedTheorems.FlagCanComeWithAPayload | src/spsc.rs:172-178 | that second load is needed: a reachable state in which the receiver has found the ring empty and the flag is up, with a published payload in memory |
| Fairness.WaitIsBounded | src/sharded.rs:160-179 | while a shard has something and is not served every call delivers, and at most `32 * (n - 1)` such calls pass, for every cursor and budget |
| Fairness.ServedInTime | src/sharded.rs:46 | so it is served within `32 * (n - 1) + 1` calls |
| Fairness.BoundIsExact | src/sharded.rs:160-179 | and the bound is reached, for every number of shards |
| Fairness.DrainStaysExactlyWhen | src/sharded.rs:200-219 | a drain whose callback returns can stay on its first shard if and only if `max` is at most a shard's capacity; one that unwinds can for every `max` |
| Fairness.DrainReachesAll | src/sharded.rs:200-219 | with `max` above a shard's capacity every shard is visited within `n - 1` drains, from any cursor |
| Sharded.Receiver.constructor | src/sharded.rs:69-110 | `n` separate rings of equal capacity, cursor and budget at 0 |
| Sharded.Receiver.AdvanceCursor | src/sharded.rs:247-254 | the compare-and-reset is the next shard of the ring, with a new budget |
| Sharded.Receiver.PerShardFifo | src/sharded.rs:13-17 | what a shard has delivered is a prefix of what its producer sent |
| Sharded.Receiver.Sweep | src/sharded.rs:164-184 | the sweep passes over shards that were idle when it began, and counts `n` disconnects only if every shard is drained at its end |
| Sharded.Receiver.TryRecv | src/sharded.rs:160-185 | while producers send and drop: one shard delivers its next payload, or all were idle at the start; up to 32 deliveries the shard under the cursor is served if it has something, and then the next one; `Disconnected` if all senders were gone and all was delivered at the start, and only when that is so, and then for ever after; `Empty` only if some sender was there |
| Sharded.Receiver.RecvUntilServed | src/sharded.rs:160-179 | a shard that has something is served after at most `Patience(cursor, budget)` deliveries from others, which is at most `32 * (n - 1)`, whatever the producers do |
| Sharded.Receiver.WaitToTheBound | src/sharded.rs:160-179 | on the receiver itself that bound is reached, from every cursor and budget: with producers that refill their shards exactly so many calls deliver from others while the shard waits |
| Sharded.Receiver.Recv | src/sharded.rs:228-245 | a blocking receive never returns `Empty`; it delivers one payload of one shard if any had one at the start, and says so if all senders were gone and all delivered; it ends without a result only after all its sweeps and one more found nothing, with nothing to deliver now and some sender left |
| Sharded.Receiver.Drain | src/sharded.rs:200-219 | one call visits each shard at most once, takes at most a shard's capacity from each and `total_cap` in all; it ends at the first call of the callback that unwinds and is `unwound` exactly then; short of `max` it has delivered all that was published when it began; where it leaves the cursor |
| Sharded.Receiver.StarveByDrains | src/sharded.rs:210-215 | on the receiver itself: while one producer refills its shard, any number of drains stay there and never visit another shard that has something, for `max` up to a shard's capacity or with unwinding callbacks |

## Left out

- The full C11/Rust memory model: the rings are modelled with sequentially consistent interleavings and with store buffers (total store order). Machines that reorder loads or other pairs of accesses are not modelled.
- The MPSC ring on store buffers is modelled for the strategy Park, in which a fence follows every publish. The SPSC ring on store buffers has two fixed threads.
- MpscArrival.OwedWakeArrives: counts moves of the interleaving machine; on store buffers the wake is stated as owed (`MpscBufferedTheorems.ConsumerWakeupIsNotLost`), and its landings are not counted.
- MpscArrival.OwedUnparkArrives: as for `OwedWakeArrives`.
- The loom variants of `Parker` and `WaiterList` (src/notify.rs:99-182), which are test doubles.
- Timing: the backoff of the claim loop, the spin hints and the `Idle` ladders of src/wait.rs. The strategies differ here only in whether a blocked side parks.
- Spsc.Channel.TrySend: ends with the store of the tail; the fence and the wake that follow are moves of `SpscPark`.
- Spsc.Channel.TryRecv: ends with the store of the head; the fence and the wake that follow are moves of `SpscPark`.
- Spsc.Channel.Drain: ends with the publish of the head; the fence and the wake that follow are moves of `SpscPark`.
- Spsc.Channel.Send: tries again where the Park arm would sleep; that arm is in `SpscPark` move by move.
- Spsc.Channel.Recv: tries again where the Park arm would sleep; that arm is in `SpscPark` move by move.
- Spsc.Channel.DropSender: ends with the store of the flag; the two wakes are moves of `SpscPark`.
- Spsc.Channel.DropReceiver: ends with the store of the flag; the two wakes are moves of `SpscPark`.
- Scheduler fairness: a schedule is finite, so a blocking operation that is still waiting when all of it has run returns `None`, with a contract that says why it cannot go on. Liveness is stated as an owed wake that arrives, or as a bound.
- Overflow of the SPSC counters after 2^64 sends: they are unbounded numbers here (the source does not saturate them). The MPSC counters are bounded as in the source.
- Overflow of the `senders` count, and wrap-around of `Arc` counts.
- Memory layout: cache-line padding, `repr(C)`, pointers of `MaybeUninit`. A slot is an optional payload; reading an empty one or overwriting a full one sets `fault`, which is proved never to happen.
- Payload destructors that panic, mutex poisoning, and the `Display` impls of the errors.
- The panics of the constructors on a capacity that is not a power of two, on an uneven split and on `Park` for the sharded channel: they are preconditions.
- The sharded senders, which only delegate to `Spsc.Channel.TrySend` and `Send`.
- Removal of a `Channel` from memory: `DropShared` is called when no handle is left and no call runs, which is what the reference count ensures.
- benches, examples and measurement code.
