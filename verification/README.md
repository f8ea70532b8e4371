# Rings, lists and protocols of the driver sources

A model of the state machines and linked structures in three groups of C sources, with proofs of
what each of them is for:

- the *Linux Device Drivers* examples under `assignment-7-saloni1307-master/`: the scull memory
  device, the scullpipe FIFO, the scull access policies, the scullp page device and its mmap, the
  shortprint printer and the snull network interfaces;
- the aesd character driver under `assignments-3-and-later-saloni1307-master/aesd-char-driver/`;
- the BSD list macros of `assignments-3-and-later-saloni1307-master/server/queue.h`.

Where the source updates objects one call at a time, the model is a class whose methods follow the
source's branches and are proved against a sequence or map held in ghost fields. Where the point is
that threads interleave, the model is a state machine with one step per lock, load, queue, pointer
and wake operation; its theorems hold for every sequence of steps of any number of threads. Several
sources have both.

| file | content |
|---|---|
| `Ring.dfy` | the ring with one reserved slot, shared by pipe and printer |
| `ScullPipe.dfy`, `PipeProtocol.dfy`, `PipeCalls.dfy` | scullpipe: the non-blocking calls as a class; blocking readers and writers interleaved; what one such call does |
| `ShortPrinter.dfy`, `ShortPrint.dfy`, `ShortWrites.dfy`, `ShortTimer.dfy` | shortprint output: its functions as a class; writer, work item, timer and interrupt interleaved; what one write hands over and when it can end; the order of the timer |
| `QuantumAddress.dfy`, `QuantumList.dfy`, `ScullStore.dfy`, `ScullFile.dfy` | scull: positions and places, the list of tables of quanta, the device that refines a map from position to byte, an open file with its position |
| `ScullpStore.dfy`, `ScullpGuard.dfy` | scullp: the device in memory, read, written, faulted, mapped and trimmed; its mapping guard, interleaved |
| `ScullAccess.dfy`, `AccessCalls.dfy`, `ScullUser.dfy`, `ScullSingle.dfy` | scull access: blocking uid open interleaved; who owns the device, and what one open or release does; non-blocking uid open; single open interleaved |
| `SnullProtocol.dfy`, `SnullQueue.dfy`, `SnullMitigation.dfy`, `SnullRuns.dfy`, `SnullCalls.dfy` | snull: two interfaces interleaved at their locked sections and unlocked loads and stores; the transmit queue; interrupts and polls; runs that go wrong; single calls |
| `SnullDevice.dfy` | snull: one interface's pool, queue and poll as a class |
| `AesdRing.dfy`, `AesdDriver.dfy`, `AesdCommands.dfy` | aesd: the ring of ten commands; the driver with its allocations; what is read for what was written |
| `Splice.dfy`, `TailQueue.dfy`, `CircleQueue.dfy` | queue.h: sequence operations, TAILQ, CIRCLEQ |

## How to read it

A machine has a `State`, an `Event`, `Enabled`, `Step` and `Run`. `Inv` is what every step keeps
(`StepKeepsInv`, by parts); the lemmas at the end of the file draw the conclusions for all reachable
states. For one call among others, `CallRun` is the run from where it is made to where it returns;
"alone" means that only its own thread takes steps. "Asleep and not woken" means: at the sleeping step and still on the wait queue, since a wake
takes the sleepers off it. A wake is "due" when some thread has made the change that calls for it and
has yet to do the waking.

In the classes, ghost fields hold the abstract value (`accepted` and `delivered` bytes, the `nodes`
of a list, the `content` of a device). `Valid` ties them to the real fields. For the linked
structures `Linked` says in full what every forward and back link is, and one lemma per kind of
change shows that it holds again when only the named links have been written. Memory is tracked as
the set of what has been allocated and not freed, so that freeing twice, or something not allocated,
does not verify, and neither does a leak, except for the one that a ghost field counts (`leaked`).

The place of a position, its item, slot and offset, is defined by counting through the quanta
(`QuantumAddress.PlaceOf`), and the nested division of the source is proved to find it (`Divide`). The
content map has a byte for exactly those positions whose place lies in a quantum that exists.
`written` is the part of it that the callers have written since the last trim.

## What came out

Most properties hold as the sources promise them. These do not, and are proved with their exact
condition:

- **snull, wake test after the unlock** (`snull.c:163-165`). `snull_release_buffer` tests for the end
  of a shortage after it has dropped the lock. With NAPI the transmitter can send the returned packet
  again before the test is made. `DisciplineFailsExactlyOnSpuriousWakes` says when the queue and the
  pool part ways; `LateWakeWedges` is a run with two packets a pool that ends in the empty-pool
  branch, which returns with the lock held. The other half holds in every run of either mode: a queue
  stopped over a non-empty pool is owed a wake (`StoppedQueueIsOwedAWake`).
- **snull, timeouts in regular mode** (`snull.c:580-587`). With an interrupt per packet, and although
  either device's handler may take the other's packet, only a test that reads a packet freed by a
  timeout can be spurious (`RegularModeIsSpuriousOnlyOnFreed`); without such a test the discipline
  holds (`RegularModeIsDisciplined`). `FreedPacketWakes` is a run with one.
- **snull, the status word** (`snull.c:419-420`, `snull.c:513-521`). The receive and the transmit bit
  are set without the lock that the handlers hold. A store can overwrite the other bit, and a clear one
  that was set after the read; then nobody reports the packet. `ActStrandsExactlyWhenBlindOrLost` is the
  condition, `OverlappingStoresStrand` and `LateClearStrands` are runs. Bits set under the lock would
  not get lost (`ExclusiveRunsLoseNothing`).
- **snull, re-enabling interrupts** (`snull.c:334-340`). A packet that arrives after the poll's last
  look at the queue finds interrupts off and is left behind when they go on again: the other cause in
  `ActStrandsExactlyWhenBlindOrLost`; `LateReenableStrands` is a run. If the end of each poll is one
  step, no run that keeps its reports strands a packet (`AtomicPollsStrandNothing`).
- **scull single open** (`access.c:57-60`). A refused opener holds its decrement for a moment, so
  another one can be refused by a device that nobody has open: `OpenSucceedsExactlyWhenQuiet`,
  `IdleDeviceRefuses`.
- **shortprint, two reads of the tail** (`shortprint.c:121-125`). `shortp_out_space` compares the tail
  without a lock and then reads it again. If the consumer passes the end of the page in between, the
  result is negative although there is space (`TornTail`). A writer that is already on the wait queue
  then goes to sleep; if that byte was the last one queued, nothing will wake it, because the wake
  test of the work item fails on an empty ring (`WakeThreshold`). `StepKeepsWaking` shows that this is
  the only way to lose a wakeup, `MissedEndStalls` is a run that does, `OnlyASignalHelps` says that the
  sleep is for good. For every reachable state, a sleeper can be woken if and only if the ring is not
  empty (`SleeperIsOwedAWake`, `EveryWriterCanBeWoken`), and a write can come to its end if and only
  if it has not missed the end and is not just about to (`WriteCanFinish`). With one load of the tail for the two
  (`OneLoadRun`) it never comes to that (`OneLoadLosesNoWake`). The FIFO and the drain hold either way.
  The pipe's conditions, also put together from several unlocked loads, are not affected
  (`NoWakeupIsLost`).
- **shortprint, the timer** (`shortprint.c:236`, `shortprint.c:261`, `shortprint.c:392`). The timer
  function tests the active flag before it takes the lock. If the work item sends a byte meanwhile, it
  sets the timer, and the function adds it once more, which `add_timer` does not allow.
  `StepKeepsTimed` is the condition, `TimerIsAddedTwice` a run.
- **scullp, mmap and trim** (`mmap.c:108-121`, `main.c:420-441`). `scullp_mmap` tests the order and
  counts the mapping without the mutex that `scullp_trim` holds. An mmap that falls between the test
  and the stores of a trim leaves the device mapped with a geometry that cannot be mapped (`TrimRace`).
  `StepKeepsGuard` shows that only this breaks the guard; in all other runs mapped pages stay
  (`MappedPagesStay`), and if mmap took the mutex there would be no others (`SerialRunsAreOrderly`).
- **scullp, counting mappings** (`mmap.c:33-45`). `dev->vmas++` and `dev->vmas--` load and store; two at
  once can lose a count. `StepKeepsCount` is the condition, `LostCountDropsMappedPage` a run in which the
  device gives up a page that is mapped; only the reference that the fault has taken then keeps it.
- **scullp, blocks of later items** (`main.c:217`, `main.c:242`). Positions are divided by the order of
  the device, but a block is allocated with the order of its own item, which is zero in all items but
  the first. So with an order above zero a copy in a later item can reach past its block.
  `BlocksSufficeExactlyForSinglePages` says that none can exactly if the order is 0, and the contracts
  of `Read` and `Write` say for each call whether it does (`Overruns`).
- **aesd, failing `krealloc`** (`main.c:138-144`). The result overwrites the only pointer to the pending
  bytes while their size stays. `Write` says what follows: exactly the pending bytes are lost, their
  buffer is leaked, and the next command has as many unspecified bytes in their place. A failing
  `kmalloc`, with nothing pending, loses nothing.
- **scull, unwritten bytes** (`main.c:368`). A quantum comes from `kmalloc` without being cleared, so
  the bytes around the ones written are content that nobody wrote. `Write` says that new content lies
  in the same quantum, and no more.

Where comments and code differ, the model follows the code. `aesd_write` looks for a newline
anywhere in the pending bytes, not only at their end, and commits all of them as one command.
The mmap comment speaks of a SIGBUS for holes; the fault handler returns the same "no page" for a
hole and for an offset past the size.

## Model

| member | source | states |
|---|---|---|
| `Ring.ConsumeFront` | assignment-7-saloni1307-master/scull/pipe.c:143-153 | taking k bytes of the first run off the front removes exactly those bytes and k from the count, wrapping at the end of the buffer |
| `Ring.ProduceBack` | assignment-7-saloni1307-master/scull/pipe.c:208-220 | filling k slots of the first free run appends exactly those bytes; the ring stays distinguishable from an empty one |
| `Ring.FreeSlotsInvisible` | assignment-7-saloni1307-master/shortprint/shortprint.c:296-302 | bytes copied in before the write index moves show in nobody's view of the queued bytes |
| `ScullPipe.SpacefreeComplementsUsed` | assignment-7-saloni1307-master/scull/pipe.c:186-191 | `spacefree` always equals `buffersize - 1 - used` |
| `ScullPipe.SpaceRunPositive` | assignment-7-saloni1307-master/scull/pipe.c:208-212 | the piece that can be written at once is empty only if all but the reserved slot are taken |
| `ScullPipe.Pipe.constructor` | assignment-7-saloni1307-master/scull/pipe.c:66-97 | the first open leaves an empty pipe of the configured size |
| `ScullPipe.Pipe.Read` | assignment-7-saloni1307-master/scull/pipe.c:123-162 | EAGAIN exactly on an empty pipe; otherwise the oldest bytes, at least one of a non-empty request, all of it unless the data or the end of the buffer comes first |
| `ScullPipe.Pipe.Write` | assignment-7-saloni1307-master/scull/pipe.c:193-231 | EAGAIN exactly on a full pipe; otherwise a non-empty prefix of the request is appended, all of it unless the space or the end of the buffer comes first; a full ring never looks empty |
| `ScullPipe.Transfer` | assignment-7-saloni1307-master/scull/pipe.c:123-231 | a writer and a reader taking turns move any message through a pipe of any size above one, in order and complete, whatever the reader's chunk size |
| `PipeProtocol.CountsFit` | assignment-7-saloni1307-master/scull/pipe.c:143-146 | the counts computed under the mutex stay within the contiguous runs |
| `PipeProtocol.StepKeepsMutex` | assignment-7-saloni1307-master/scull/pipe.c:128-154 | each step takes or frees the mutex exactly as the thread's place says: one holder |
| `PipeProtocol.OtherStepsLeaveTheRing` | assignment-7-saloni1307-master/scull/pipe.c:131-142 | a thread without the mutex changes neither pointers nor bytes, and can only take a free mutex |
| `PipeProtocol.StepKeepsPointers` | assignment-7-saloni1307-master/scull/pipe.c:131-157 | every step of any thread keeps both pointers in range and what the mutex holder knows about them |
| `PipeProtocol.StepKeepsFifo` | assignment-7-saloni1307-master/scull/pipe.c:143-153 | every interleaved step keeps delivered + queued = accepted, also between a copy and the move of the pointer |
| `PipeProtocol.WrapKeepsFull` | assignment-7-saloni1307-master/scull/pipe.c:219-220 | wrapping `wp` after a write does not change whether the pipe is full |
| `PipeProtocol.GapMeansFull` | assignment-7-saloni1307-master/scull/pipe.c:186-191 | a writer that has loaded the right `rp` and finds no gap to `wp` faces a full pipe |
| `PipeProtocol.StepKeepsReadersSafe` | assignment-7-saloni1307-master/scull/pipe.c:131-142 | no step leaves a queued reader with loads that would let it sleep over data, unless a wake is due |
| `PipeProtocol.StepKeepsWritersSafe` | assignment-7-saloni1307-master/scull/pipe.c:164-182 | no step leaves a queued writer with loads that would let it sleep over free space, unless a wake is due |
| `PipeProtocol.StepKeepsInv` | assignment-7-saloni1307-master/scull/pipe.c:131-224 | mutual exclusion, pointers, FIFO, queues and wakeups together survive every step of every thread |
| `PipeProtocol.NoWakeupIsLost` | assignment-7-saloni1307-master/scull/pipe.c:131-182 | in every interleaving of any number of threads an unwoken sleeping reader faces an empty pipe or a writer whose wake is due; dually for writers; the unlocked conditions are evaluated load by load |
| `PipeProtocol.ConcurrentFifo` | assignment-7-saloni1307-master/scull/pipe.c:143-224 | the bytes delivered to all readers are a prefix of the bytes accepted from all writers, and the rest is in the ring |
| `PipeProtocol.OnlyEmptyOrFullBlocks` | assignment-7-saloni1307-master/scull/pipe.c:131-182 | no deadlock: if nobody inside a call can move, the mutex is free and the sleepers are all readers of an empty pipe or all writers of a full one, or the buffer is the reserved slot alone |
| `PipeCalls.ReadCall` | assignment-7-saloni1307-master/scull/pipe.c:123-160 | a read among any other calls either gives up, and has delivered nothing, or there was a moment at which the pipe was not empty, and it has delivered the bytes that were the oldest then, all that it asked for unless the data or the end of the buffer came first |
| `PipeCalls.WriteCall` | assignment-7-saloni1307-master/scull/pipe.c:193-231 | a write among any other calls either gives up, and nothing of it was accepted, or there was a moment at which the pipe was not full, and it has stored the prefix of its own request that fitted then |
| `PipeCalls.ReadsSomething` | assignment-7-saloni1307-master/scull/pipe.c:123-160 | so a read that returns without an error has delivered at least a byte, if it asked for any, and no more than it asked for |
| `PipeCalls.WritesSomething` | assignment-7-saloni1307-master/scull/pipe.c:193-231 | and a write has stored a prefix of its own request, not empty unless the request is |
| `PipeCalls.ReadAlone` | assignment-7-saloni1307-master/scull/pipe.c:123-160 | a read alone, of a pipe that is not empty, in any reachable state with the mutex free: the oldest bytes are delivered, the others stay queued, sleeping writers are off their queue, and nothing else has changed |
| `PipeCalls.WriteAlone` | assignment-7-saloni1307-master/scull/pipe.c:193-231 | a write alone, to a pipe that is not full: a prefix of the request is appended, sleeping readers are off their queue, and nothing else has changed |
| `PipeCalls.CallsEndAlone` | assignment-7-saloni1307-master/scull/pipe.c:123-231 | these calls come to their end |
| `PipeCalls.WaitingCallsEndAlone` | assignment-7-saloni1307-master/scull/pipe.c:131-182 | so does any call that is waiting, wherever it is, once there is what it waits for and no wake is to come: nobody sleeps on |
| `PipeCalls.EmptyPipeRefuses` | assignment-7-saloni1307-master/scull/pipe.c:131-142 | a read alone, of an empty pipe, changes nothing: it may return with EAGAIN, or it falls asleep on its queue until a signal |
| `PipeCalls.FullPipeRefuses` | assignment-7-saloni1307-master/scull/pipe.c:164-182 | so does a write alone to a full one |
| `ShortPrint.OutSpaceIsFreeRun` | assignment-7-saloni1307-master/shortprint/shortprint.c:119-126 | the contiguous space is nil exactly when `PAGE_SIZE - 1` bytes are queued |
| `ShortPrint.WakeThreshold` | assignment-7-saloni1307-master/shortprint/shortprint.c:346-348 | the wake test passes exactly for a ring less than half full and not empty |
| `ShortPrint.StaleTailIsSafe` | assignment-7-saloni1307-master/shortprint/shortprint.c:286-299 | space computed from an old tail is still free after the consumer has moved on |
| `ShortPrint.TornTail` | assignment-7-saloni1307-master/shortprint/shortprint.c:119-126 | of the two tails that `shortp_out_space` reads the second counts, unless the consumer has passed the end of the page in between: then the space that is there is denied |
| `ShortPrint.StepKeepsRing` | assignment-7-saloni1307-master/shortprint/shortprint.c:286-304 | every step of writer, work item, timer and interrupt keeps strobed + queued = accepted, and what the writer has read or computed stays good |
| `ShortPrint.WriterStepKeepsControl` | assignment-7-saloni1307-master/shortprint/shortprint.c:286-311 | the writer's steps keep lock and drain alive, including between moving the head and its locked start |
| `ShortPrint.WorkerStepKeepsControl` | assignment-7-saloni1307-master/shortprint/shortprint.c:325-349 | the work item's steps keep the drain alive, including between finding the ring empty and clearing the active flag |
| `ShortPrint.StepKeepsInv` | assignment-7-saloni1307-master/shortprint/shortprint.c:253-400 | ring, locking and drain survive every step of every interleaving |
| `ShortPrint.StepKeepsWaking` | assignment-7-saloni1307-master/shortprint/shortprint.c:286-348 | a step from a good state leaves the writer asleep without a prospect if and only if its recheck misses the end: first tail read behind the head's wrap, last byte out, second tail read |
| `ShortPrint.PrinterFifo` | assignment-7-saloni1307-master/shortprint/shortprint.c:286-343 | in every interleaving the bytes strobed out are a prefix of the bytes accepted and a copy from a stale space fits |
| `ShortPrint.DrainCannotStall` | assignment-7-saloni1307-master/shortprint/shortprint.c:253-400 | in every interleaving there are bytes with inactive output only while the writer has its locked start to do, and active output has work queued or running or the timer armed or firing |
| `ShortPrint.SleeperIsOwedAWake` | assignment-7-saloni1307-master/shortprint/shortprint.c:286-348 | in every reachable state a writer asleep and unwoken faces a ring at least half full, or a work item about to wake it, if and only if the ring is not empty; and then output is active |
| `ShortPrint.SteadySleeperHasData` | assignment-7-saloni1307-master/shortprint/shortprint.c:286-348 | as long as the end has not been missed the ring under a sleeper is not empty |
| `ShortPrint.OneLoadLosesNoWake` | assignment-7-saloni1307-master/shortprint/shortprint.c:119-126 | so it is in every run in which `shortp_out_space` makes do with one load of the tail |
| `ShortPrint.HelperAdvances` | assignment-7-saloni1307-master/shortprint/shortprint.c:325-400 | while such a writer sleeps, work queue or timer can always step, and bring the wake nearer |
| `ShortPrint.WakeIsReachable` | assignment-7-saloni1307-master/shortprint/shortprint.c:325-400 | with every interrupt lost, the work queue and timer alone wake it |
| `ShortPrint.EveryWriterCanBeWoken` | assignment-7-saloni1307-master/shortprint/shortprint.c:286-400 | in every reachable state a sleeper can be woken, by any run without a signal or by work queue and timer alone, if and only if the ring is not empty |
| `ShortPrint.MissedEndStalls` | assignment-7-saloni1307-master/shortprint/shortprint.c:119-126 | the end can be missed: a run from the start that leaves the writer asleep over an empty ring |
| `ShortPrint.OnlyASignalHelps` | assignment-7-saloni1307-master/shortprint/shortprint.c:325-400 | such a writer sleeps on whatever printer, work queue and timer do, until a signal comes |
| `ShortWrites.WriteAcceptsItsRequest` | assignment-7-saloni1307-master/shortprint/shortprint.c:286-304 | among all steps of the drain, at every point of a write without a signal a first part of its request has been accepted and what the writer has still to do is exactly the rest; at its end all of the request has been accepted |
| `ShortWrites.SignalCutsRequest` | assignment-7-saloni1307-master/shortprint/shortprint.c:289-293 | with a signal a first part has been, and nothing else |
| `ShortWrites.SignalReturns` | assignment-7-saloni1307-master/shortprint/shortprint.c:289-293 | a signal ends the wait and changes nothing else |
| `ShortWrites.NextComesCloser` | assignment-7-saloni1307-master/shortprint/shortprint.c:286-311 | unless the writer has missed the end or is about to, somebody can take a step after which less is to do or the next move of the head is nearer: the holder of the lock, the drain, or the writer |
| `ShortWrites.WriteCanFinish` | assignment-7-saloni1307-master/shortprint/shortprint.c:271-317 | in every reachable state a write can be finished without a signal, with every byte of the rest accepted, if and only if the writer neither has missed the end nor is one step away from it |
| `ShortWrites.WorkStrobesOne` | assignment-7-saloni1307-master/shortprint/shortprint.c:325-349 | one run of the work item over data sends exactly the oldest byte, sets the timer and wakes a writer exactly over what is less than half but not nothing |
| `ShortWrites.WorkEndsOutput` | assignment-7-saloni1307-master/shortprint/shortprint.c:325-349 | over an empty ring it ends the output and takes the timer away |
| `ShortWrites.TimeoutAlone` | assignment-7-saloni1307-master/shortprint/shortprint.c:379-400 | one run of the timer function does nothing without output, sets the timer again while the printer is busy and queues the work otherwise |
| `ShortWrites.InterruptAlone` | assignment-7-saloni1307-master/shortprint/shortprint.c:363-372 | an interrupt queues the work exactly while there is output |
| `ShortTimer.StepKeepsTimed` | assignment-7-saloni1307-master/shortprint/shortprint.c:232-262 | the timer is not pending when `shortp_timeout` and `shortp_start_output` add it, and a step ends that if and only if it overtakes the timer function between its firing and its lock, or resets the timer with output inactive |
| `ShortTimer.NoTimerIsAddedTwice` | assignment-7-saloni1307-master/shortprint/shortprint.c:379-395 | so in every run without such a step `add_timer` never meets a pending timer |
| `ShortTimer.TimerIsAddedTwice` | assignment-7-saloni1307-master/shortprint/shortprint.c:379-395 | with one it can: a run |
| `ShortPrinter.Printer.StartOutput` | assignment-7-saloni1307-master/shortprint/shortprint.c:253-265 | inactive output becomes active with the timer armed and the work queued; active output is left alone |
| `ShortPrinter.Printer.WriteRound` | assignment-7-saloni1307-master/shortprint/shortprint.c:286-311 | one round of the loop appends as much as fits in one piece, nothing exactly on a full ring, and has output running |
| `ShortPrinter.Printer.WaitForSpace` | assignment-7-saloni1307-master/shortprint/shortprint.c:289-293 | the writer goes to sleep exactly on a full ring |
| `ShortPrinter.Printer.Write` | assignment-7-saloni1307-master/shortprint/shortprint.c:271-317 | exactly `min(count, PAGE_SIZE - 1 - queued)` bytes are appended, wherever the free space wraps, and the writer is then asleep exactly if something is left |
| `ShortPrinter.Printer.DoWrite` | assignment-7-saloni1307-master/shortprint/shortprint.c:231-247 | exactly the oldest byte goes out and the timer is set |
| `ShortPrinter.Printer.DoWork` | assignment-7-saloni1307-master/shortprint/shortprint.c:325-349 | the oldest byte goes out, or an empty ring ends the output and its timer; a waiting writer stays asleep exactly over a ring at least half full |
| `ShortPrinter.Printer.Timeout` | assignment-7-saloni1307-master/shortprint/shortprint.c:379-400 | a busy printer restarts the timer, a lost interrupt queues the work |
| `ShortPrinter.Printer.DrainUntilWoken` | assignment-7-saloni1307-master/shortprint/shortprint.c:325-400 | with every interrupt lost, timer and work queue wake a waiting writer, with the ring less than half full and not empty |
| `ShortPrinter.Printer.Print` | assignment-7-saloni1307-master/shortprint/shortprint.c:271-349 | a whole call of `write`, with as many sleeps as it takes: any message goes out complete and in order |
| `ShortPrinter.Printer.Drain` | assignment-7-saloni1307-master/shortprint/shortprint.c:325-400 | left to the timer and the work queue, everything accepted goes out in order, the output falls inactive and no writer stays asleep |
| `QuantumAddress.Divide` | assignment-7-saloni1307-master/scull/main.c:312-315 | nested division finds the item, slot and offset that counting through the quanta leads to |
| `QuantumAddress.PlaceDeterminesPosition` | assignment-7-saloni1307-master/scull/main.c:312-315 | the place that is reached by counting has the position counted |
| `QuantumAddress.PositionDeterminesPlace` | assignment-7-saloni1307-master/scull/main.c:312-315 | every place is the place of its own position, so no two positions share a byte and none is left out |
| `QuantumAddress.SameQuantum` | assignment-7-saloni1307-master/scull/main.c:328-330 | the positions up to the end of a quantum lie side by side in it |
| `QuantumAddress.StretchOfQuantum` | assignment-7-saloni1307-master/scull/main.c:352-355 | exactly the positions of a write within a quantum lie in the stretch that it fills |
| `QuantumList.QuantumInstalled` | assignment-7-saloni1307-master/scull/main.c:367-371 | a quantum put into a slot is found through that slot, and every other item and slot tells what it told |
| `QuantumList.OverlayTwice` | assignment-7-saloni1307-master/scull/main.c:380-381 | two writes, the second where the first ended, are one write of both buffers |
| `ScullStore.ScullDev.Follow` | assignment-7-saloni1307-master/scull/main.c:265-289 | the item asked for, the list grown as far as needed by empty items; nothing is allocated if the list reaches already |
| `ScullStore.ScullDev.EnsureTable` | assignment-7-saloni1307-master/scull/main.c:361-366 | a missing table is made with all slots empty; failure changes nothing |
| `ScullStore.ScullDev.EnsureQuantum` | assignment-7-saloni1307-master/scull/main.c:367-371 | a missing quantum is made and nothing else changes |
| `ScullStore.ScullDev.Reserve` | assignment-7-saloni1307-master/scull/main.c:352-371 | growing list, table and quanta loses no content; what is new lies in one quantum |
| `QuantumList.NewQuantumHolds` | assignment-7-saloni1307-master/scull/main.c:367-371 | a new quantum brings the bytes it happens to hold, exactly where there was a hole |
| `ScullStore.ScullDev.CopyToQuantum` | assignment-7-saloni1307-master/scull/main.c:376-379 | copying into a quantum changes exactly the positions written |
| `ScullStore.ScullDev.Read` | assignment-7-saloni1307-master/scull/main.c:295-337 | nothing at or past the size and in a hole; otherwise the content from the position on, clipped at the size and at the end of the quantum; nothing is allocated or changed |
| `ScullStore.ScullDev.Write` | assignment-7-saloni1307-master/scull/main.c:339-390 | exactly `min(count, quantum - offset)` bytes are stored where reported, all other content stays, the size grows to the new position if that is larger; ENOMEM, only without memory and in a hole, changes no content |
| `ScullFile.File.SeekThenRead` | assignment-7-saloni1307-master/scull/main.c:295-337 | a read after a seek returns what is at the target, wherever the file was: as many bytes as are asked for, up to the size and the end of the quantum, and none past the end or in a hole; a bad origin or a target before the start leaves the position |
| `ScullFile.File.WriteSeekRead` | assignment-7-saloni1307-master/scull/main.c:525-549 | what was written is read back after a seek by as much backwards, and the file is then where the write left it |
| `ScullStore.ScullDev.FreeQuanta` | assignment-7-saloni1307-master/scull/main.c:71-72 | the inner loop frees each quantum of an item once |
| `ScullStore.ScullDev.FreeAll` | assignment-7-saloni1307-master/scull/main.c:69-78 | the loop frees every item, table and quantum there is, each while it is still allocated |
| `ScullStore.ScullDev.Trim` | assignment-7-saloni1307-master/scull/main.c:63-84 | everything allocated since the last trim is freed, once each; the device is empty and takes over the geometry now set |
| `ScullStore.ScullDev.WriteAll` | assignment-7-saloni1307-master/scull/main.c:339-390 | repeated on the remainder, writes store the whole buffer at any position; only a lack of memory stops them, with a prefix stored |
| `ScullStore.ScullDev.ReadAll` | assignment-7-saloni1307-master/scull/main.c:295-337 | repeated on the remainder, reads return exactly what was last written, each at least a byte |
| `ScullStore.ScullDev.RoundTrip` | assignment-7-saloni1307-master/scull/main.c:295-390 | what `WriteAll` stores anywhere `ReadAll` gives back |
| `TailQueue.LinkedAfterInsert` | assignments-3-and-later-saloni1307-master/server/queue.h:453-486 | if just the links around the new node have changed, the list with the node in it is consistent, back links included |
| `TailQueue.LinkedAfterRemove` | assignments-3-and-later-saloni1307-master/server/queue.h:497-504 | so for a node taken out |
| `TailQueue.LinkedAfterReplace` | assignments-3-and-later-saloni1307-master/server/queue.h:506-515 | so for a node replaced |
| `TailQueue.LinkedAfterConcat` | assignments-3-and-later-saloni1307-master/server/queue.h:488-495 | so for two lists joined at the seam |
| `TailQueue.LinkedAfterMove` | assignments-3-and-later-saloni1307-master/server/queue.h:517-534 | so for a list moved under another head |
| `TailQueue.Head.constructor` | assignments-3-and-later-saloni1307-master/server/queue.h:448-451 | the empty list |
| `TailQueue.Head.InsertHead` | assignments-3-and-later-saloni1307-master/server/queue.h:453-461 | refines `[elm] + nodes` |
| `TailQueue.Head.InsertTail` | assignments-3-and-later-saloni1307-master/server/queue.h:481-486 | refines `nodes + [elm]` |
| `TailQueue.Head.InsertBefore` | assignments-3-and-later-saloni1307-master/server/queue.h:463-468 | refines insertion in front of a member, without access to the head |
| `TailQueue.Head.InsertAfter` | assignments-3-and-later-saloni1307-master/server/queue.h:470-479 | refines insertion behind a member |
| `TailQueue.Head.Remove` | assignments-3-and-later-saloni1307-master/server/queue.h:497-504 | refines deletion, touching only the head and the two neighbours |
| `TailQueue.Head.InsertThenRemove` | assignments-3-and-later-saloni1307-master/server/queue.h:463-504 | removing what was inserted restores every link of the list, forward and back |
| `TailQueue.Head.Replace` | assignments-3-and-later-saloni1307-master/server/queue.h:506-515 | refines replacement of one member |
| `TailQueue.Head.Concat` | assignments-3-and-later-saloni1307-master/server/queue.h:488-495 | the second list goes behind the first and is empty afterwards |
| `TailQueue.Head.Swap` | assignments-3-and-later-saloni1307-master/server/queue.h:517-534 | the two heads exchange their lists, empty ones included |
| `TailQueue.Head.Last` | assignments-3-and-later-saloni1307-master/server/queue.h:541-542 | reading the tail link as a head and following its tail link gives the last node, or none |
| `TailQueue.Head.Prev` | assignments-3-and-later-saloni1307-master/server/queue.h:544-545 | the same trick on a back link gives the node before, or none |
| `TailQueue.Head.Forward` | assignments-3-and-later-saloni1307-master/server/queue.h:549-552 | the traversal visits the nodes in order |
| `TailQueue.Head.Backward` | assignments-3-and-later-saloni1307-master/server/queue.h:559-562 | the reverse traversal visits exactly the reverse |
| `TailQueue.Head.RemoveEach` | assignments-3-and-later-saloni1307-master/server/queue.h:554-557 | the safe traversal survives removal of the current node: exactly the nodes not removed are left, in order |
| `TailQueue.RoundStep` | assignments-3-and-later-saloni1307-master/server/queue.h:554-557 | one round of it keeps what was kept so far and has the rest ahead |
| `CircleQueue.LinkedAfterInsert` | assignments-3-and-later-saloni1307-master/server/queue.h:595-637 | if just the links around the new node have changed, both directions of the ring through the head are consistent |
| `CircleQueue.LinkedAfterRemove` | assignments-3-and-later-saloni1307-master/server/queue.h:639-650 | so for a node taken out |
| `CircleQueue.Head.InsertHead` | assignments-3-and-later-saloni1307-master/server/queue.h:595-604 | refines `[elm] + nodes` |
| `CircleQueue.Head.InsertTail` | assignments-3-and-later-saloni1307-master/server/queue.h:628-637 | refines `nodes + [elm]` |
| `CircleQueue.Head.InsertBefore` | assignments-3-and-later-saloni1307-master/server/queue.h:606-615 | refines insertion in front of a member |
| `CircleQueue.Head.InsertAfter` | assignments-3-and-later-saloni1307-master/server/queue.h:617-626 | refines insertion behind a member |
| `CircleQueue.Head.Remove` | assignments-3-and-later-saloni1307-master/server/queue.h:639-650 | refines deletion |
| `CircleQueue.Head.InsertThenRemove` | assignments-3-and-later-saloni1307-master/server/queue.h:606-650 | removing what was inserted restores every link of the ring |
| `CircleQueue.Head.LoopNext` | assignments-3-and-later-saloni1307-master/server/queue.h:699-702 | the next member, from the last to the first |
| `CircleQueue.Head.LoopPrev` | assignments-3-and-later-saloni1307-master/server/queue.h:704-707 | the member before, from the first to the last |
| `CircleQueue.Head.ThereAndBack` | assignments-3-and-later-saloni1307-master/server/queue.h:699-707 | the two undo each other on every member, in either order |
| `CircleQueue.Head.Tour` | assignments-3-and-later-saloni1307-master/server/queue.h:699-702 | n steps in a ring of n visit each member once and return |
| `SnullProtocol.ActKeepsOwned` | assignment-7-saloni1307-master/snull/snull.c:133-191 | each step of either device moves packets without losing, doubling or mixing them up, whoever's handler takes them |
| `SnullProtocol.ResetOwned` | assignment-7-saloni1307-master/snull/snull.c:580-587 | so does a timeout, which frees what is in the pool and leaves what is in flight |
| `SnullProtocol.PacketsAreConserved` | assignment-7-saloni1307-master/snull/snull.c:99-191 | in every reachable state each allocated packet is in exactly one of its pool, the transmitter's hands, the peer's queue, the hands of the peer's poll and those of the peer's transmitter in its own handler; their number is the pool size plus those in flight at the last reset |
| `SnullQueue.StoppedQueueIsOwedAWake` | assignment-7-saloni1307-master/snull/snull.c:140-165 | no wake is lost: in every run of either mode, with spurious wakes and timeouts, if a queue is stopped over a non-empty pool the packet at the bottom of that pool owes a wake test and will pass it, be it by its transmitter, the peer's or the peer's poll; with NAPI it is alone there |
| `SnullQueue.DisciplineFailsExactlyOnSpuriousWakes` | assignment-7-saloni1307-master/snull/snull.c:163-165 | a step leaves the stop/wake discipline if and only if it is the second half of a wake test and wakes a queue whose pool is empty |
| `SnullQueue.QueueStopsWithThePool` | assignment-7-saloni1307-master/snull/snull.c:140-165 | as long as no wake test is spurious, an empty pool has the queue stopped, and the empty-pool branch is never taken |
| `SnullQueue.ActKeepsSafe` | assignment-7-saloni1307-master/snull/snull.c:350-393 | in regular mode, while the peer's own handler owes the wake test of an allocated packet, that packet is in its pool or the queue is not going to stop |
| `SnullQueue.RegularModeIsSpuriousOnlyOnFreed` | assignment-7-saloni1307-master/snull/snull.c:163-165 | so in regular mode no wake test is spurious but one that reads a packet freed by a timeout |
| `SnullQueue.RegularModeIsDisciplined` | assignment-7-saloni1307-master/snull/snull.c:350-393 | and the discipline holds in every run without such a test |
| `SnullQueue.RegularModeWithoutTimeouts` | assignment-7-saloni1307-master/snull/snull.c:350-393 | in particular in every run without timeouts |
| `SnullRuns.LateWakeWedges` | assignment-7-saloni1307-master/snull/snull.c:133-166 | with NAPI a test can come late: two packets a pool, and a run that takes the empty-pool branch, which returns with the lock held |
| `SnullRuns.FreedPacketWakes` | assignment-7-saloni1307-master/snull/snull.c:580-587 | in regular mode a timeout can end the discipline: a run in which a freed packet's test wakes a queue over an empty pool |
| `SnullMitigation.ActStrandsExactlyWhenBlindOrLost` | assignment-7-saloni1307-master/snull/snull.c:398-438 | with NAPI a step leaves packets with interrupts on and no report on its way if and only if it re-enables interrupts over packets unseen, or stores or clears the status word over a receive bit set since it was loaded, with no other report of them |
| `SnullMitigation.MitigationStrandsNoPacket` | assignment-7-saloni1307-master/snull/snull.c:398-438 | in every run without such a step a non-empty receive queue with no report on its way has interrupts off and a poll scheduled |
| `SnullMitigation.AtomicRunsAreSighted` | assignment-7-saloni1307-master/snull/snull.c:334-344 | a run in which the end of each poll is one step and no report is lost has no such step |
| `SnullMitigation.AtomicPollsStrandNothing` | assignment-7-saloni1307-master/snull/snull.c:334-344 | so it strands no packet |
| `SnullMitigation.ExclusiveRunsLoseNothing` | assignment-7-saloni1307-master/snull/snull.c:513-521 | if the bits were set under the lock of the handlers no report would be lost |
| `SnullMitigation.LockedStatusStrandsNothing` | assignment-7-saloni1307-master/snull/snull.c:513-521 | and with atomic polls no packet stranded |
| `SnullRuns.OverlappingStoresStrand` | assignment-7-saloni1307-master/snull/snull.c:513-521 | they are not: a run, with no poll in it, in which the store of one bit overwrites the other and strands a packet |
| `SnullRuns.LateClearStrands` | assignment-7-saloni1307-master/snull/snull.c:419-420 | the same with the receive bit set between a handler's read and its clear |
| `SnullRuns.LateReenableStrands` | assignment-7-saloni1307-master/snull/snull.c:300-344 | and by a poll interrupted at its end |
| `SnullCalls.TransmitSchedulesPoll` | assignment-7-saloni1307-master/snull/snull.c:502-530 | a transmission alone, with NAPI and the peer's interrupts on, puts the head of the pool on the peer's queue, turns the peer's interrupts off and schedules its poll; the last packet stops the queue; nothing else changes |
| `SnullCalls.TransmitQuietly` | assignment-7-saloni1307-master/snull/snull.c:502-530 | with the peer's interrupts off only the queues change |
| `SnullCalls.TransmitAndReceive` | assignment-7-saloni1307-master/snull/snull.c:502-530 | in regular mode the peer's handler takes the packet at once and returns it: the pool is as before, and the queue runs |
| `SnullCalls.TimeoutResets` | assignment-7-saloni1307-master/snull/snull.c:577-587 | a timeout alone gives the device a new pool of full size and starts its queue; what is in flight stays allocated |
| `SnullCalls.PollHandlesItsShare` | assignment-7-saloni1307-master/snull/snull.c:300-344 | a poll alone, of any budget, sends exactly `min(budget, queue length)` packets home in order, wakes the peer's queue if that ends a shortage, and turns interrupts on exactly when the budget was not used up, unless it has been scheduled once more |
| `SnullCalls.PollsKeepToTheirBudget` | assignment-7-saloni1307-master/snull/snull.c:306-332 | in every run no poll handles more packets than its budget |
| `SnullDevice.Interface.GetTxBuffer` | assignment-7-saloni1307-master/snull/snull.c:133-152 | the head of the pool; the last packet stops the queue; on an empty pool nothing, and then and only then the lock stays taken |
| `SnullDevice.Interface.ReleaseBuffer` | assignment-7-saloni1307-master/snull/snull.c:155-166 | the packet heads the pool; one that ends a shortage wakes the queue |
| `SnullDevice.Interface.Poll` | assignment-7-saloni1307-master/snull/snull.c:300-344 | handles exactly `min(budget, queue length)` packets; delivered and dropped are these packets in queue order, by whether an skb was had, and with memory all are delivered; all go back to the sender's pool; interrupts go on exactly when the budget was not used up, and then over an empty queue |
| `AesdRing.CircularBuffer.constructor` | assignments-3-and-later-saloni1307-master/aesd-char-driver/aesd-circular-buffer.c:128-131 | an empty ring |
| `AesdRing.CircularBuffer.AddEntry` | assignments-3-and-later-saloni1307-master/aesd-char-driver/aesd-circular-buffer.c:88-123 | the new entry is the youngest; in a full ring the oldest goes and its pointer is returned; fullness is permanent |
| `AesdRing.CircularBuffer.FindEntryOffsetForFpos` | assignments-3-and-later-saloni1307-master/aesd-char-driver/aesd-circular-buffer.c:31-79 | entry and inner offset of that character of the concatenation; nothing exactly at or past the total length, in every reachable ring, empty entries included |
| `AesdDriver.PieceOfStream` | assignments-3-and-later-saloni1307-master/aesd-char-driver/main.c:86-101 | a piece of a command is the same piece of the stream |
| `AesdDriver.AesdDev.Append` | assignments-3-and-later-saloni1307-master/aesd-char-driver/main.c:126-153 | the bytes go behind the pending ones in a buffer of their own; when an allocation fails the pending bytes are lost and their buffer is leaked, and nothing else changes |
| `AesdDriver.AesdDev.Commit` | assignments-3-and-later-saloni1307-master/aesd-char-driver/main.c:155-167 | the pending bytes become the youngest command, the ring holds the last ten, and exactly the buffer pushed out is freed |
| `AesdDriver.MemoryAfterEviction` | assignments-3-and-later-saloni1307-master/aesd-char-driver/main.c:158-162 | after the free each remaining command still owns its buffer, and nothing else is allocated |
| `AesdDriver.HistoryAfterCommit` | assignments-3-and-later-saloni1307-master/aesd-char-driver/main.c:155-167 | committed and pending bytes together stay what was accepted, and the ring the last ten commands |
| `AesdDriver.AesdDev.Write` | assignments-3-and-later-saloni1307-master/aesd-char-driver/main.c:108-174 | with memory all bytes are accepted, and memory alone can be missing; with a newline anywhere all that is pending becomes one command, otherwise it stays pending; without memory none is accepted, and exactly the pending bytes count as lost |
| `AesdCommands.CommandsPartitionTheStream` | assignments-3-and-later-saloni1307-master/aesd-char-driver/main.c:126-167 | grouped as the driver does it, a list of writes loses and moves no byte; every command has a newline and what is pending has none |
| `AesdCommands.CommandsAreLines` | assignments-3-and-later-saloni1307-master/aesd-char-driver/main.c:155-167 | writes that end at their newlines give exactly the lines of the text that they make up |
| `AesdCommands.WriteEach` | assignments-3-and-later-saloni1307-master/aesd-char-driver/main.c:108-174 | with memory every one of a list of writes is accepted in full, and the device has the commands that they complete |
| `AesdCommands.WriteThenRead` | assignments-3-and-later-saloni1307-master/aesd-char-driver/main.c:60-174 | the round trip: reads of a new device with memory, written to in any pieces, give the last ten commands that these complete; of pieces that end at their newlines, the last ten lines of the text |
| `AesdDriver.MemoryAfterLoss` | assignments-3-and-later-saloni1307-master/aesd-char-driver/main.c:137-144 | after a failed `krealloc` exactly the pending buffer is allocated without an owner |
| `AesdDriver.AesdDev.NothingLostNothingChanged` | assignments-3-and-later-saloni1307-master/aesd-char-driver/main.c:108-174 | as long as no allocation failed over pending bytes, commands and pending bytes are what was accepted, byte for byte |
| `AesdDriver.AesdDev.Read` | assignments-3-and-later-saloni1307-master/aesd-char-driver/main.c:60-106 | exactly `min(count, rest of the command found)` bytes of the stream from the position on; at or past the end nothing, and the position goes back to 0 |
| `AesdDriver.AesdDev.ReadAll` | assignments-3-and-later-saloni1307-master/aesd-char-driver/main.c:77-105 | reads with any positive counts yield the whole stream, then an empty read that rewinds |
| `ScullpGuard.StepKeepsCount` | assignment-7-saloni1307-master/scullp/mmap.c:33-45 | a step makes `vmas` differ from the number of mappings if and only if it stores a count that somebody has changed since it was loaded |
| `ScullpGuard.MappedPagesAreNotDropped` | assignment-7-saloni1307-master/scullp/main.c:414-442 | in every interleaving in which no count is lost, `vmas` is the number of mappings, and every page in the page tables of a mapping is still a page of the device |
| `ScullpGuard.StepKeepsGuard` | assignment-7-saloni1307-master/scullp/mmap.c:108-121 | a step leaves the device mapped with an order other than 0, or mapped with a trim past its test, if and only if it counts an mmap that a trim has overtaken or that has overtaken a trim |
| `ScullpGuard.MappedPagesStay` | assignment-7-saloni1307-master/scullp/main.c:414-442 | in every run without such a step, while there is a mapping: whatever is opened, written, faulted, mapped, unmapped or set by ioctl, the geometry stays, every page stays in its place and the device gives none up |
| `ScullpGuard.SerialRunsAreOrderly` | assignment-7-saloni1307-master/scullp/mmap.c:108-121 | if each mmap held the mutex no run would have such a step |
| `ScullpGuard.TrimRace` | assignment-7-saloni1307-master/scullp/main.c:420-441 | the mutex is not held: a run from the start to a device mapped with order 1 |
| `ScullpGuard.LostCountDropsMappedPage` | assignment-7-saloni1307-master/scullp/mmap.c:33-45 | counts do get lost: a run in which a trim gives up a page that is mapped |
| `ScullpGuard.AloneIsRun` | assignment-7-saloni1307-master/scullp/main.c:414-442 | the calls of the class below, taken whole, are runs of that machine |
| `ScullpStore.QuantumShifts` | assignment-7-saloni1307-master/scullp/main.c:217 | the quantum is a page shifted by the order: orders add as the quanta multiply |
| `ScullpStore.BlocksSufficeExactlyForSinglePages` | assignment-7-saloni1307-master/scullp/main.c:235-247 | every copy within a quantum stays within its block if and only if the order is 0: blocks of later items have one page |
| `ScullpStore.OnlySinglePagesCanBeMapped` | assignment-7-saloni1307-master/scullp/mmap.c:71-74 | faults, which count pages, and reads, which count blocks, name the same block everywhere if and only if the order is 0 |
| `ScullpStore.ScullpDev.Follow` | assignment-7-saloni1307-master/scullp/main.c:147-158 | the item asked for, the list grown as far as needed by empty items |
| `ScullpStore.ScullpDev.Read` | assignment-7-saloni1307-master/scullp/main.c:164-207 | nothing past the size and where there is no block; otherwise the content from the position on, clipped at the size and at the end of the quantum; it leaves the block exactly if that is too short; only a read at the very end can grow the list |
| `ScullpStore.ScullpDev.Write` | assignment-7-saloni1307-master/scullp/main.c:212-262 | exactly `min(count, quantum - offset)` bytes are stored where reported, a new block is zero elsewhere and all other content stays; ENOMEM, only without memory and where there is no block, changes no content; the copy leaves the block exactly if that is too short |
| `ScullpStore.ScullpDev.WriteThenRead` | assignment-7-saloni1307-master/scullp/main.c:164-262 | what is written anywhere is read back at once: all of the buffer, unless the quantum ends first; the size covers it and grows no further than that; with order 0 a fault finds the page with these bytes |
| `ScullpStore.ScullpDev.WriteSeen` | assignment-7-saloni1307-master/scullp/main.c:212-262 | to the mappings it is one write of the machine above, enabled where it happens |
| `ScullpStore.ScullpDev.Walk` | assignment-7-saloni1307-master/scullp/mmap.c:71-86 | walking the list and subtracting ends at the block with that number, or past the list exactly if there is none |
| `ScullpStore.ScullpDev.Nopage` | assignment-7-saloni1307-master/scullp/mmap.c:62-97 | the block with the number of the faulting page; none at or past the size and in a hole |
| `ScullpStore.ScullpDev.Fault` | assignment-7-saloni1307-master/scullp/mmap.c:62-97 | a fault in an area puts the page that is found there, and to the mappings that is one fault of the machine |
| `ScullpStore.ScullpDev.MappingAgreesWithRead` | assignment-7-saloni1307-master/scullp/mmap.c:71-86 | with order 0 a fault and a read at any position below the size find the same page, which holds the byte of that position, and none exactly in a hole |
| `ScullpStore.ScullpDev.VmaOpen` | assignment-7-saloni1307-master/scullp/mmap.c:33-38 | a fork by itself, as a run of the machine: one mapping and one count more, and the child sees the pages that its parent sees |
| `ScullpStore.ScullpDev.VmaClose` | assignment-7-saloni1307-master/scullp/mmap.c:40-45 | an unmap by itself, as a run of the machine: one mapping and one count less, and the area sees no page any more |
| `ScullpStore.ScullpDev.Mmap` | assignment-7-saloni1307-master/scullp/mmap.c:108-121 | an mmap by itself, as a run of the machine: refused exactly unless the order is 0, otherwise one mapping and one count more |
| `ScullpStore.ScullpDev.FreeBlocks` | assignment-7-saloni1307-master/scullp/main.c:426-429 | each block of an item is freed once, with the order it was allocated with |
| `ScullpStore.ScullpDev.FreeNext` | assignment-7-saloni1307-master/scullp/main.c:423-436 | one item: its blocks, its table and, unless it is the device, the item |
| `ScullpStore.ScullpDev.Trim` | assignment-7-saloni1307-master/scullp/main.c:414-442 | refused exactly while `vmas` is not zero; otherwise everything but the device is freed, once each, and the device is empty with the geometry now set; as the machine says of a trim by itself |
| `ScullAccess.StepKeepsCounts` | assignment-7-saloni1307-master/scull/access.c:187-205 | the count moves exactly with the files opened and released, at every step of every thread |
| `ScullAccess.StepKeepsAdmitted` | assignment-7-saloni1307-master/scull/access.c:180-188 | every step keeps all open files within the owner's rights |
| `ScullAccess.StepKeepsWakeup` | assignment-7-saloni1307-master/scull/access.c:165-208 | no step leaves an opener waiting on what it read earlier unless that is still so or a wake is due |
| `ScullAccess.NoOpenerIsForgotten` | assignment-7-saloni1307-master/scull/access.c:165-210 | in every interleaving an opener asleep and unwoken may not have the device, or a releaser's wake is due; the condition is evaluated in separate loads |
| `ScullAccess.CountIsOpenFiles` | assignment-7-saloni1307-master/scull/access.c:187-205 | the count is the number of open files, up to threads in the middle of an open or release |
| `ScullAccess.OpenFilesShareTheOwner` | assignment-7-saloni1307-master/scull/access.c:165-188 | every open file was admitted by uid, euid, capability or an idle device and is still the owner's: two unprivileged ones have an id in common |
| `ScullAccess.OwnerStaysWhileCounted` | assignment-7-saloni1307-master/scull/access.c:185-188 | the owner stays as long as the count is not zero |
| `ScullAccess.OwnerStays` | assignment-7-saloni1307-master/scull/access.c:185-188 | so it does as long as any one file stays open |
| `ScullAccess.OnlyAnotherOwnerBlocks` | assignment-7-saloni1307-master/scull/access.c:174-210 | no deadlock: if nobody inside a call can move, files are open and each sleeper is neither their owner nor its su |
| `AccessCalls.OwnerIsTheGrabber` | assignment-7-saloni1307-master/scull/access.c:186-188 | in every run, while the count is not zero the owner is the real uid with which the opener called that last counted itself in on an idle device |
| `AccessCalls.OpenCall` | assignment-7-saloni1307-master/scull/access.c:174-196 | an open among any other calls either gives up, and has neither been counted nor got a file, or it has been counted in once and has a file of its own, and there was a moment at which it had the lock and the device was available to it |
| `AccessCalls.ReleaseCall` | assignment-7-saloni1307-master/scull/access.c:198-210 | a release among any other calls is counted out once |
| `AccessCalls.OpenAlone` | assignment-7-saloni1307-master/scull/access.c:174-196 | an open alone by someone the device is available to is counted, has its file and, of an idle device, becomes the owner by its real uid; nothing else changes |
| `AccessCalls.ReleaseAlone` | assignment-7-saloni1307-master/scull/access.c:198-210 | a release alone: one file and one count less, and after the last one nobody is left on the queue |
| `AccessCalls.CallsEndAlone` | assignment-7-saloni1307-master/scull/access.c:174-210 | these calls come to their end |
| `AccessCalls.WaitingOpenEndsAlone` | assignment-7-saloni1307-master/scull/access.c:179-185 | so does any opener that is waiting, wherever it is, once the device is available to it and no wake is to come |
| `AccessCalls.RefusedSleeps` | assignment-7-saloni1307-master/scull/access.c:179-185 | anyone else goes to sleep on the queue, and changes nothing else |
| `AccessCalls.RefusedReturns` | assignment-7-saloni1307-master/scull/access.c:179-185 | or returns with EAGAIN, or from its sleep on a signal, with nothing changed |
| `ScullUser.UserDevice.Open` | assignment-7-saloni1307-master/scull/access.c:103-128 | EBUSY exactly while files are open and their owner is neither the opener nor its su nor overridden; the owner changes only on an idle device |
| `ScullUser.UserDevice.Release` | assignment-7-saloni1307-master/scull/access.c:130-136 | one file less, same owner |
| `ScullSingle.AtMostOneFile` | assignment-7-saloni1307-master/scull/access.c:55-75 | in every interleaving at most one file of the device is open |
| `ScullSingle.OpenSucceedsExactlyWhenQuiet` | assignment-7-saloni1307-master/scull/access.c:55-75 | an open, by whomever, succeeds exactly when no file is open and no refused opener still owes its increment, and is refused otherwise |
| `ScullSingle.IdleDeviceRefuses` | assignment-7-saloni1307-master/scull/access.c:57-60 | so an idle device can refuse an opener: a run that shows it |

## Left out

- Kernel glue: registration, module init and exit, proc and seq files, ioctl permission checks and copying, poll and fasync, `tty` output, statistics other than those of the snull poll. `copy_to_user` and `copy_from_user` succeed.
- Integer widths: sizes, positions, counters and totals are mathematical integers. The sources are within range as long as a device stays below 2 GB.
- Locks taken interruptibly are always obtained; a signal is an early return where the source waits (`GiveUp`, `Signal`), not while it queues for a mutex.
- scullpipe and snull from one open on: a second open of the pipe resets both pointers without waking anybody, and a second open of an interface starts its queue without a look at the pool.
- ScullPipe.Pipe.Read: the method is the call with O_NONBLOCK; blocking is in `PipeProtocol`. So for `Write`.
- ShortPrint.DrainCannotStall: waiting for the printer to be ready and strobe delays take no step; an `add_timer` that meets a pending timer leaves it pending, where the kernel stops with a bug (`ShortTimer` says when that happens); the input side and its timestamps are not modelled.
- ScullStore.ScullDev.Write: the device's quantum and qset, which `scull_read` and `scull_write` fetch before they take the mutex, are fetched in the same step. Geometry is positive. Which bytes a new quantum holds is not specified.
- ScullStore.ScullDev.Trim: an ioctl is just a new value of the global geometry, given to the next trim.
- ScullFile.File.SeekThenRead: one file, and no other call between the two; positions are unbounded.
- ScullStore.ScullDev.Read: with no list at all `scull_read` would be able to allocate an item; the size is zero then and it returns before.
- ScullpStore.ScullpDev.Follow: `scullp_follow` does not test the result of `kmalloc`; here it has memory.
- ScullpStore.ScullpDev.Write: a copy that would leave its block is reported and not carried out; what it would do to other memory is not modelled, and nothing is said of the device afterwards. So for `Read`.
- ScullpStore.ScullpDev.Nopage: the mutex and the page reference count: a page that the device gives up may still be held by a mapping. The calls of the class are those of one thread.
- ScullpGuard.MappedPagesStay: the order and qset that `scullp_read` and `scullp_write` fetch before they take the mutex are fetched in the same step; each read, write and fault is one step under the mutex. Pages come and go with their place, item and slot; the list and the tables are in `ScullpStore`.
- scullc, sculld and scullv: near copies of scullp.
- SnullProtocol.PacketsAreConserved: lockup simulation, packet contents, and the socket buffer that the transmit bit frees; of a handler, the clear of the status word and what follows under the lock are one step: what others do in between could as well be done before or after; a timeout comes when the queue is stopped and no transmission is under way; with NAPI, scheduling a poll that is scheduled already makes it run once more.
- SnullDevice.Interface.Poll: run without interruption; whether an skb can be had is left open per packet where memory may be short.
- AesdDriver.AesdDev.Write: the pending entry is not freed at module exit; the copy takes all bytes.
- queue.h: LIST, SLIST and STAILQ, which are simpler than TAILQ; `CIRCLEQ_REPLACE` and `CIRCLEQ_FOREACH_REVERSE_SAFE`, which do not compile as written; the plain CIRCLEQ traversals. The positions that methods of the queue classes take (`k`) are ghost: they only name the place in the sequence.
- ScullUser.UserDevice.Open: the trim on a write-only open is that of `ScullStore`; the per-terminal cloned devices are not modelled.
- ScullAccess.NoOpenerIsForgotten: `capable()` does not change its answer during an open.
- sbull, tiny_tty, tiny_serial, usb, pci, lddbus and the user programs.
