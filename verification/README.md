# Virtio drivers: the split virtqueue and its clients

This project models, in Dafny, the driver side of a split virtqueue (sections 2.6.5 to 2.6.14 of VIRTIO 1.1) together with
the device it shares memory with, the drivers built on it (input, network receive, block, GPU), and what lies below it
(memory layout, the memory-mapped transport, the initialisation handshake, nested interrupt disabling).

The device is a nondeterministic party. It takes heads from the available ring, walks the chain it finds there in shared
memory, completes any chain it holds in any order, and toggles the notification flag. It never writes the descriptor
table or the available ring, and it completes only chains it has taken, once each, under their head. Memory for a queue
starts zeroed.

How the parts fit together:

- `QueueModel` has the shared memory, both parties' private state and a history as one value (`System`), the pure steps
  of both parties, and the invariant `Inv`. `QueueProofs` shows that every step keeps it, `QueueRuns` lifts that to whole
  runs, `QueueTheorems` draws the consequences and the exact conditions. `Counterexamples` shows where the code does
  less than one would hope.
- `Queue` is the class `VirtIoQueue` over arrays. Its methods run with device steps at every access to shared memory
  (a schedule: any list of steps for every point, of which the device takes those that it may), and are proved to behave
  as if the whole call were one step; `Interference` has the reasoning for that. `Endings` shows that the walks along
  `next` end, and `Discipline` gives rules under which pops in any order are safe.
- `Blocking` and `Clients` are requests that wait for their end; `Transfers` is what a device reads and writes that
  follows a chain into memory. `PoolModel`, `PoolSchedules`, `PoolDriver`, `Input` and `Net` are drivers that keep all
  their buffers with the device, which acts on queue and buffers also in the middle of their calls; `NetHeader` is the
  header in front of every packet.
- `Layout`, `Mmio`, `Setup` place queues, tell the device about them, and bring a device into service; `Records` is the
  layout of records in memory. A legacy device derives the places from its registers, and a notification is a write to
  the register for it. `Interrupts` is the nested interrupt counter. `Wrap`, `Bits` and `Sequences` are arithmetic and
  sequences.

Positions in the rings are unbounded in the history and 16 bits wide in memory; `Wrap` relates the two for every queue
size that `new` accepts (a power of two, so at most 32768).

Six properties one might expect do not hold, and are stated with their exact conditions:

- A scan may match an entry that was popped already, when entries are popped ahead of the cursor and a head is reused
  (`Counterexamples.StaleEntryIsPopped`). Popping is safe, and the entry is the chain's own completion, if and only if
  the index found is not in `poped_used` (`QueueTheorems.PopSafeIff`, `QueueTheorems.CanPopTruthfulIff`). Otherwise a
  descriptor can become its own successor, and `pop_used` never ends (`Counterexamples.PopNeverEnds`). Taking what
  `peek_used` reports, one request at a time, or the rules of `Discipline` never get there.
- A completion may overwrite one that was not read, because entries popped ahead of the cursor still count
  (`Counterexamples.CompletionIsLost`), and it is then lost for good (`Lost.CompletionLostForever`). Every entry survives
  if and only if the window is shorter than the queue (`QueueTheorems.CompleteSafeIff`).
- `add` links descriptors but leaves NEXT to its caller. Popping returns what adding took if and only if NEXT is set on
  all descriptors but the last (`Counterexamples.ReturnedIffWellFlagged`).
- `pop_pending_event` may lose an event: it returns an error, and the event was popped, if and only if an event was
  pending, the device wants notifications, and the notification fails (`Input.VirtIOInput.PopPendingEvent`,
  `Input.VirtIOInput.LoseEvent`).
- `receive` may panic on a packet that fits: if and only if some descriptor is free, as a completion shorter than the
  header leaves behind, and the notification does not fail first (`Net.VirtIONet.Receive`, `Net.VirtIONet.ShortThenPanics`).
- A legacy device may have the used ring elsewhere than `queue_set` asserts: it has every address as asked if and only if
  it was told the page size, the page number is not zero and fits 32 bits, and the descriptors and the available ring do
  not fill whole pages (`Mmio.RoundsTooFar`, `Mmio.StoredAsAsked`). No size that `new` accepts fills whole pages
  (`Layout.NeverWholePages`).

Where code and comments disagree the model follows the code: `pop_used` is documented for the token that is next in the
used ring, but pops any token in the window; `align_up` adds a whole page to an exact multiple; the network driver calls
the second component of `can_recv` a packet length, but it is the length of a buffer, and nothing here relies on it.

## Model

| member | source | states |
|---|---|---|
| `Wrap.AcceptedBound` | virtio-drivers/src/queue.rs:35-40 | every accepted size is at most 32768 |
| `Wrap.SlotOfIndex` | virtio-drivers/src/queue.rs:309-316 | the slot of a wrapped 16-bit index is the slot of the unbounded position, across any number of wraps |
| `Wrap.LowSub` | virtio-drivers/src/queue.rs:149-155 | the wrapping difference of two indices is the true difference of their positions |
| `Wrap.SlotInjective` | virtio-drivers/src/queue.rs:309-316 | positions less than a queue size apart have different slots |
| `QueueProofs.ChainRoundTrip` | virtio-drivers/src/queue.rs:125-140 | the cells written for a list hold its buffers in order, and are linked head to tail exactly if the list is well flagged |
| `QueueProofs.WalkOfLive` | virtio-drivers/src/queue.rs:219-226 | following `next` from the head of any outstanding chain ends, and visits exactly the ids of that chain in order |
| `QueueProofs.AddLeavesChains` | virtio-drivers/src/queue.rs:125-140 | adding a chain leaves every cell of every other outstanding chain as it was |
| `QueueProofs.AddOwnership` | virtio-drivers/src/queue.rs:120-141 | the ids of a new chain were free, and moving them to it keeps every descriptor with exactly one owner |
| `QueueProofs.PopOwnership` | virtio-drivers/src/queue.rs:219-226 | popping appends exactly the ids of the chain, head to tail, to the free list and keeps every descriptor with one owner |
| `QueueProofs.AvailSpace` | virtio-drivers/src/queue.rs:309-316 | with a free descriptor left, fewer heads than the queue has slots await the device, so a push overwrites none of them |
| `QueueProofs.AddAvail` | virtio-drivers/src/queue.rs:309-316 | the available ring keeps every head the device has not taken, under wrap-around |
| `QueueProofs.TakeReads` | virtio-drivers/src/queue.rs:309-316 | the device takes heads in the order they were added and finds the whole chain that was added |
| `QueueProofs.TakeFaithful` | virtio-drivers/src/queue.rs:125-140 | everything the device has read equals what the driver submitted, in order |
| `QueueProofs.MatchOk` | virtio-drivers/src/queue.rs:143-158 | the scan over wrapped indices finds the first unread position that carries the token, if there is one |
| `QueueProofs.AdvanceMatches` | virtio-drivers/src/queue.rs:227-235 | moving the 16-bit cursor over the 16-bit set agrees with moving unbounded positions |
| `QueueProofs.PopUsedOk` | virtio-drivers/src/queue.rs:205-235 | after a pop the cursor, the popped set and the ring still describe the completions that are unread |
| `QueueProofs.AddKeeps` | virtio-drivers/src/queue.rs:120-141 | `add` keeps the whole invariant |
| `QueueProofs.DeviceKeepsCore` | virtio-drivers/src/queue.rs:318-333 | every step of a conforming device keeps all of the invariant that does not concern the used ring, also where it overwrites unread completions |
| `QueueProofs.DeviceKeeps` | virtio-drivers/src/queue.rs:318-333 | a step of a conforming device keeps the whole invariant if and only if it is not a completion without room |
| `QueueProofs.PopKeeps` | virtio-drivers/src/queue.rs:197-237 | `pop_used` keeps the whole invariant if it matched an entry not popped before |
| `QueueRuns.FreshInv` | virtio-drivers/src/queue.rs:53-63 | a new queue satisfies the invariant |
| `QueueRuns.GuardedRunKeeps` | virtio-drivers/src/queue.rs:120-237 | over any interleaving of adds, device steps and pops with room in the window and unpopped matches, the invariant holds throughout |
| `QueueRuns.PeekIsOldest` | virtio-drivers/src/queue.rs:161-168 | `peek_used` reports the oldest unread completion, and nothing exactly if there is none; never one popped before |
| `QueueRuns.RoomForHeld` | virtio-drivers/src/queue.rs:197-237 | without pops ahead of the cursor the unread completions are fewer than the queue has slots whenever the device holds a chain |
| `QueueRuns.InOrderRunKeeps` | virtio-drivers/src/queue.rs:120-237 | over any run that pops what `peek_used` reports the invariant holds, with no further assumption |
| `QueueRuns.InOrderRunIsFifo` | virtio-drivers/src/queue.rs:161-237 | over any such run the pops return exactly the device's completions, with their lengths, in completion order, none lost or repeated |
| `QueueRuns.GuardedRunPopsOnce` | virtio-drivers/src/queue.rs:197-237 | over any guarded run, in whatever order the driver pops, what it obtained is exactly the completions it popped, each once and with its own length |
| `Discipline.CarefulRunKeeps` | virtio-drivers/src/queue.rs:197-237 | over any run of a driver that adds only while `poped_used` is empty and pops only outstanding chains, in whatever order: the invariant holds, and every completion is obtained at most once, with its own length |
| `QueueTheorems.Conservation` | virtio-drivers/src/queue.rs:120-237 | the free list and the ids of all outstanding chains are together each descriptor exactly once |
| `QueueTheorems.CanPopExact` | virtio-drivers/src/queue.rs:143-158 | with in-order pops, `can_pop` holds exactly for outstanding chains that the device has completed |
| `QueueTheorems.WindowDistinct` | virtio-drivers/src/queue.rs:197-237 | unread completions carry different heads, all of them outstanding |
| `QueueTheorems.CanPopTruthfulIff` | virtio-drivers/src/queue.rs:143-158 | a token that `can_pop` accepts is a completed chain with the entry found as its completion if and only if the index found is not in `poped_used` |
| `QueueTheorems.StalePopFrees` | virtio-drivers/src/queue.rs:205-226 | popping an entry again puts a descriptor on the free list that is there already or belongs to an outstanding chain |
| `QueueTheorems.PopSafeIff` | virtio-drivers/src/queue.rs:205-237 | a pop keeps the invariant if and only if the index it found was not in `poped_used` |
| `QueueTheorems.CompleteSafeIff` | virtio-drivers/src/queue.rs:197-237 | a completion leaves every entry from the cursor on intact in the ring if and only if fewer entries than the queue has slots lie between cursor and used index |
| `QueueTheorems.OutOfOrderCursor` | virtio-drivers/src/queue.rs:205-235 | after any safe pop the cursor is the least unpopped position, and `poped_used` holds exactly the popped positions above it, under wrap-around |
| `QueueTheorems.PoppableIsStable` | virtio-drivers/src/queue.rs:197-221 | a token once poppable stays so, at the same index and with the same length, whatever the device does |
| `Counterexamples.StaleEntryIsPopped` | virtio-drivers/src/queue.rs:205-226 | a guarded run to a consistent state in which a chain the device never took can be popped, with the length of an older one; the pop breaks the invariant |
| `Counterexamples.CompletionIsLost` | virtio-drivers/src/queue.rs:143-158 | a run after which an unread completion is overwritten and its token cannot be popped |
| `Counterexamples.PopNeverEnds` | virtio-drivers/src/queue.rs:219-226 | a legal run after which a poppable token starts a walk along `next` that never ends |
| `Lost.RunStaysGone` | virtio-drivers/src/queue.rs:120-237 | a descriptor that is neither free, queued, held nor named in the used ring stays so over every legal run, and its token is never poppable |
| `Lost.CompletionLostForever` | virtio-drivers/src/queue.rs:143-158 | a run after which a completed chain can never be popped and never becomes free, however the run goes on |
| `Endings.AlwaysEnds` | virtio-drivers/src/queue.rs:219-226 | after any guarded run the walk of `pop_used` ends from whatever descriptor it starts, also from a free one |
| `Counterexamples.MissingNextLeaks` | virtio-drivers/src/queue.rs:219-226 | a longer chain whose head lacks NEXT is returned without its tail |
| `Counterexamples.ReturnedIffWellFlagged` | virtio-drivers/src/queue.rs:125-140 | popping returns exactly the descriptors that adding took if and only if NEXT is set on all but the last |
| `Interference.PathFrom` | virtio-drivers/src/queue.rs:120-237 | every schedule of device steps leads along a path from every state, so the contracts below speak of all of them |
| `Queue.VirtIoQueue.constructor` | virtio-drivers/src/queue.rs:53-63 | a queue over zeroed memory with all descriptors free satisfies the invariant, under which the published `used_event` always equals the cursor |
| `Queue.VirtIoQueue.Add` | virtio-drivers/src/queue.rs:120-141 | with any conforming device acting at every memory access: QueueFull and no change if descriptors are lacking, else exactly one atomic submission under the returned head, and the device never sees a half-written chain |
| `Queue.VirtIoQueue.CanPopNow` | virtio-drivers/src/queue.rs:143-158 | with the device acting at every access, the answer is exact for the moment the index was loaded |
| `Queue.VirtIoQueue.PopUsed` | virtio-drivers/src/queue.rs:197-237 | with the device acting at every access: NotReady exactly if the token was not poppable at the load; otherwise both assertions hold, the length of the entry found is returned, and the effect is one atomic pop, which keeps the queue valid unless that entry was stale |
| `Queue.VirtIoQueue.PeekUsed` | virtio-drivers/src/queue.rs:161-168 | the oldest unread completion, or none if all were read |
| `Queue.VirtIoQueue.AvailableDesc` | virtio-drivers/src/queue.rs:175-186 | the number of free descriptors is the size minus those in outstanding chains |
| `Queue.VirtIoQueue.Notify` | virtio-drivers/src/queue.rs:84-87 | the index of the queue is written to the notification register exactly if the device wants notifications and the transport works; fails exactly if it wants one that fails |
| `Queue.VirtIoQueue.AddNotifyWaitPop` | virtio-drivers/src/queue.rs:77-92 | with a conforming device acting before, during and after the submission and before the flags are read, a blocking request ends once the device has completed it, returns the device's length, and takes a queue at rest back to rest; the device is notified exactly if it wants that; a failed notification leaves the chain outstanding |
| `Blocking.RestMeans` | virtio-drivers/src/queue.rs:77-92 | with nothing outstanding every descriptor is free once, `poped_used` is empty and the cursor equals the used index |
| `Blocking.ServedRests` | virtio-drivers/src/queue.rs:77-92 | a served request adds exactly one completion, its own, and returns its descriptors |
| `Blocking.RequestExchanges` | virtio-drivers/src/queue.rs:77-92 | whatever the device does before, during and after the submission, a blocking request from rest submits and completes its own chain and nothing else |
| `Blocking.BlockingRuns` | virtio-drivers/src/queue.rs:77-92 | over any run of blocking requests no request that fits the queue finds it full |
| `Blocking.DelayedServes` | virtio-drivers/src/queue.rs:77-92 | whatever request is made of a queue at rest, a conforming device can serve it after any delay, with any length |
| `Clients.ChainsWellFlagged` | virtio-drivers/src/device/block/mod.rs:66-109 | every chain built by the block, GPU and network drivers has NEXT on all descriptors but the last |
| `Clients.ChainConveys` | virtio-drivers/src/device/block/mod.rs:66-109 | a device that follows the chain of a request reads, whatever the memory holds, exactly the 16 bytes of a block header and then the data of a write, the GPU request, or the 10 bytes of a network header and then the packet; it may write exactly the data of a read and then the response, of exactly their lengths |
| `Clients.WritableLast` | virtio-drivers/src/device/block/mod.rs:66-109 | the buffers that the device may write come after everything it is to read |
| `Clients.RequestSizes` | virtio-drivers/src/device/block/ty.rs:77-97 | the lengths of header and response are the sizes of their records |
| `Clients.DeviceSawChain` | virtio-drivers/src/device/block/mod.rs:66-87 | during a request the device takes exactly one chain and finds in it exactly the descriptors that were added |
| `Clients.ClientRuns` | virtio-drivers/src/device/gpu/mod.rs:154-181 | over any run of requests the device was conveyed exactly these requests in order, completed exactly them with the lengths it reported, and there is always room for the next (3 of 16, 2 of 2, 1 of 2) |
| `Clients.Client.Perform` | virtio-drivers/src/device/block/mod.rs:146-164 | a request never fails with QueueFull and fails exactly if the device wants a notification that fails; otherwise the device was conveyed exactly this request and completed it with the length returned, and the queue is at rest; the device is notified under the index of the queue exactly if it wants that |
| `Clients.Client.PerformAll` | virtio-drivers/src/device/block/mod.rs:66-164 | any number of requests one after the other, each served after any delay: the device was conveyed each of them in order and completed exactly these chains, each call returns the length reported for it, the device is notified once for each if it wants that, and the queue is at rest |
| `Clients.ServeFresh` | virtio-drivers/src/device/block/mod.rs:30-164 | the same from a new queue of any accepted size and index |
| `PoolModel.PoolDeviceKeeps` | virtio-drivers/src/device/input/mod.rs:71-88 | no write to a buffer and no queue step of the device disturbs the binding of tokens to buffers or an unread buffer |
| `PoolModel.PopKeepsPool` | virtio-drivers/src/device/input/mod.rs:71-88 | the token that `peek_used` reports can be popped, and its buffer still holds what the device completed |
| `PoolModel.AddKeepsPool` | virtio-drivers/src/device/input/mod.rs:41-50 | submitting buffer t when t heads the free list gives token t and keeps the binding |
| `PoolModel.ServiceKeeps` | virtio-drivers/src/device/input/mod.rs:71-88 | pop and resubmit keeps all tokens outstanding and bound |
| `PoolModel.PoolRunIsFifo` | virtio-drivers/src/device/input/mod.rs:71-88 | over any run of the device and the driver, what was handed out is a prefix of what the device completed, in order, and the tokens stay bound |
| `PoolModel.AllBound` | virtio-drivers/src/device/net/mod.rs:40-45 | between calls descriptor t points at buffer t, for every t |
| `PoolModel.PeekStable` | virtio-drivers/src/device/net/mod.rs:85-97 | what `peek_used` reported stays the next completion whatever the device does |
| `PoolSchedules.PoolPath` | virtio-drivers/src/device/input/mod.rs:71-88 | the queue goes along the same path whether or not the device also writes buffers |
| `PoolDriver.BufferPool.Submit` | virtio-drivers/src/device/net/raw.rs:206-218 | while the device acts on queue and buffers inside the call, the effect is that of the same device steps followed by one atomic submission |
| `PoolDriver.BufferPool.Pop` | virtio-drivers/src/device/net/raw.rs:239-243 | while the device acts on queue and buffers inside the call, the reported token is popped, and the effect is that of the same device steps followed by one atomic pop |
| `PoolDriver.BufferPool.Collect` | virtio-drivers/src/device/input/mod.rs:71-78 | yields the length and the contents that the device completed the reported token with, whatever the device does meanwhile |
| `PoolDriver.BufferPool.Resubmit` | virtio-drivers/src/device/net/mod.rs:85-97 | the new token equals the popped one if and only if no other descriptor was free, whatever the device does meanwhile |
| `Input.VirtIOInput.constructor` | virtio-drivers/src/device/input/mod.rs:41-50 | every event buffer gets its own index as token, whatever the device does meanwhile |
| `Input.EventsTile` | virtio-drivers/src/device/input/mod.rs:37-47 | every byte of the array of events belongs to exactly one event buffer, and no other byte to any |
| `Input.EventSize` | virtio-drivers/src/device/input/ty.rs:63-72 | the length of an event buffer is the size of the record |
| `Input.VirtIOInput.New` | virtio-drivers/src/device/input/mod.rs:35-63 | InvalidParam exactly if the device lacks one of the two queues; IoError only if the notification fails; otherwise all buffers are submitted on queue 0, the status queue has index 1, the device knows both under their indices at the memory each was granted, queue 0 alone is notified, if the device wants that, and the handshake is complete |
| `Input.VirtIOInput.PopPendingEvent` | virtio-drivers/src/device/input/mod.rs:71-88 | pops the oldest completion and returns its event, none exactly if none is pending; notifies queue 0 exactly if an event was popped and the device wants it; errs, having popped the event, exactly if that notification fails; all buffers stay submitted and both token assertions hold |
| `Input.VirtIOInput.LoseEvent` | virtio-drivers/src/device/input/mod.rs:71-88 | from every state without pending events the device can complete an event that no call hands out |
| `Net.VirtIONet.New` | virtio-drivers/src/device/net/mod.rs:35-48 | InvalidParam exactly for buffers below 1526 bytes or a device that lacks one of the two queues; IoError only if a notification fails; otherwise every receive buffer gets its own index as token on queue 0, the send queue has index 1, the device knows both under their indices at the memory each was granted, and an idle device is notified once for each buffer |
| `NetHeader.HeaderIsPrefix` | virtio-drivers/src/device/net/ty.rs:11 | the header is exactly the first `NET_HDR_SIZE` bytes: two buffers hold the same header if and only if they agree in these |
| `NetHeader.ZeroHeader` | virtio-drivers/src/device/net/ty.rs:106-118 | the default header is ten zero bytes |
| `NetHeader.WriteTo` | virtio-drivers/src/device/net/ty.rs:120-137 | the bytes written decode to the header, and no byte behind it changes |
| `NetHeader.Equal` | virtio-drivers/src/device/net/ty.rs:138-152 | true exactly if the buffer decodes to the header |
| `Net.FillBufferHeader` | virtio-drivers/src/device/net/raw.rs:117-123 | InvalidParam and no change for a short buffer; otherwise the first ten bytes are zero, the buffer passes `CheckTxBufHeader`, and nothing behind the header changes |
| `Net.CheckTxBufHeader` | virtio-drivers/src/device/net/raw.rs:102-112 | accepts exactly the buffers that start with ten zero bytes, the default header |
| `Net.VirtIONet.Receive` | virtio-drivers/src/device/net/mod.rs:85-97 | returns exactly the bytes behind the header of the oldest unread completion and touches no other byte of the caller's buffer; for every length of a completion, every free list and every notification outcome, exactly whether it returns the packet, an error, or panics; queue 0 is notified exactly if the buffer was submitted again and the device wants it |
| `Net.VirtIONet.ShortThenPanics` | virtio-drivers/src/device/net/mod.rs:85-97 | from every state without pending packets a completion shorter than the header makes the call after it panic on any packet that fits |
| `Layout.RecordSizes` | virtio-drivers/src/queue.rs:263-333 | the sizes of the three areas are those of the records `Descriptor`, `AvailRing` and `UsedRing` |
| `Layout.AlignUpIsMask` | virtio-drivers/src/lib.rs:23-25 | the rounding of the layout is the mask that `align_up` computes on 64-bit words |
| `Layout.AlignUpIsRoundUp` | virtio-drivers/src/lib.rs:19-25 | `align_up` rounds up to a page exactly on sizes that are not whole pages, and adds a page to those that are |
| `Layout.NeverWholePages` | virtio-drivers/src/queue.rs:66-69 | for every accepted size the two lengths that are rounded are not whole pages |
| `Layout.NoSparePage` | virtio-drivers/src/queue.rs:66-69 | the offsets and the total size agree with ordinary rounding |
| `Layout.AreasFit` | virtio-drivers/src/queue.rs:246-256 | the three areas are apart, inside the allocated pages, and aligned to 16, 2 and 4 bytes |
| `Layout.AllApart` | qemu/src/my_impl.rs:72-86 | over any run of the allocator no two areas of any queues or buffers overlap |
| `Layout.BumpAllocator.DmaAlloc` | qemu/src/my_impl.rs:72-86 | grants follow each other in whole pages as long as the address counter does not wrap |
| `Mmio.StoredAsAsked` | virtio-drivers/src/transport/mmio.rs:304-324 | a legacy device that derives the areas from page size, alignment and page number gets the asked addresses exactly if it was told the page size, the page number is not zero and fits 32 bits, and `align_up` did not add a spare page; it gets no queue exactly if the low 32 bits are zero |
| `Mmio.RoundsTooFar` | virtio-drivers/src/transport/mmio.rs:304-324 | a size for which the assertions of the legacy `queue_set` hold and the device has the used ring elsewhere |
| `Mmio.UsedIffLatestSet` | virtio-drivers/src/transport/mmio.rs:364-370 | over any run of calls a queue is in use exactly if the latest call that set or unset it was a set |
| `Mmio.MmioTransport.QueueSet` | virtio-drivers/src/transport/mmio.rs:295-341 | changes its own queue alone, whatever was selected, to what the registers make of it; on an unused queue the device sees, at every register write, the old or the complete new configuration |
| `Mmio.MmioTransport.QueueUnset` | virtio-drivers/src/transport/mmio.rs:343-362 | frees its own queue alone and leaves its registers cleared; a modern device that is slow to stop sees at every write the old complete configuration or none; a legacy device sees a queue of size zero, and then one without alignment, on the way |
| `Mmio.MmioTransport.AwaitStop` | virtio-drivers/src/transport/mmio.rs:354-356 | the wait ends with the device no longer using the queue, and nothing else changed |
| `Mmio.MmioTransport.Put64` | virtio-drivers/src/volatile.rs:63-70 | a 64-bit register is written in two halves, which a device that does not use the queue does not notice |
| `Mmio.MmioTransport.QueueUsed` | virtio-drivers/src/transport/mmio.rs:364-370 | true exactly if the queue has a configuration, and changes none |
| `Mmio.MmioTransport.MaxQueueSize` | virtio-drivers/src/transport/mmio.rs:260-263 | the limit of the queue asked for, zero for one the device does not have |
| `Mmio.MmioTransport.PerformAll` | virtio-drivers/src/transport/mmio.rs:260-370 | over any run of calls the shared register bank answers and behaves like an independent configuration per queue |
| `Mmio.MmioTransport.ReadDeviceFeatures` | virtio-drivers/src/transport/mmio.rs:241-247 | both words of what the device offers |
| `Mmio.MmioTransport.WriteDriverFeatures` | virtio-drivers/src/transport/mmio.rs:249-258 | the device receives all 64 bits |
| `Mmio.MmioTransport.BeginInit` | virtio-drivers/src/transport/mod.rs:68-87 | resets the device, leaves no queue in use, and has it receive exactly the features offered and supported, with status bits only ever set, and in the order of section 3.1.1 of VIRTIO 1.1 |
| `Mmio.StatusOnlyGains` | virtio-drivers/src/transport/mod.rs:68-97 | over a whole handshake no status bit is ever cleared after the reset |
| `Mmio.FeaturesFrozen` | virtio-drivers/src/transport/mod.rs:68-97 | over a whole handshake the features do not change once they are acknowledged |
| `Mmio.MmioTransport.Notify` | virtio-drivers/src/transport/mmio.rs:265-269 | writes the queue's index to the notification register, and changes nothing else |
| `Setup.LegacyAssertionsHold` | virtio-drivers/src/transport/mmio.rs:304-315 | the addresses that `new` passes satisfy the assertions of the legacy `queue_set` |
| `Setup.PlacedAsAsked` | virtio-drivers/src/transport/mmio.rs:295-341 | the device is told the addresses of the queue if and only if it is modern, or the page number is not zero and fits 32 bits and the size is not one that `align_up` rounds too far (no accepted size is) |
| `Setup.NewQueue` | virtio-drivers/src/queue.rs:31-64 | AlreadyUsed exactly for a queue in use, InvalidParam exactly for a bad or too large size, both without effect; else a queue at rest with the index asked for, whose areas at the memory it was granted the device is told under that index, on a legacy device if the page number is not zero and fits 32 bits |
| `Setup.NewBlk` | virtio-drivers/src/device/block/mod.rs:30-46 | the device learns queue 0 at the memory it was granted, with bit 3 of the status set and bit 2 clear; status bits only gain, the exact features are agreed, and the queue is never found in use |
| `Setup.NewPair` | virtio-drivers/src/device/gpu/mod.rs:40-64 | the same with two queues of one size: the first has index 0, the second index 1, and the device knows each under its index at its own memory |
| `Interrupts.Cpu.Push` | qemu/src/mutex.rs:53-61 | interrupts are off inside, and the flag to restore is kept |
| `Interrupts.Cpu.Pop` | qemu/src/mutex.rs:63-75 | panics exactly outside all sections; leaving the outermost section restores the flag |
| `Interrupts.Cpu.Run` | qemu/src/mutex.rs:53-75 | any run goes through if and only if it is properly nested, has interrupts off at positive depth, and restores the flag when balanced |

## Left out

- CanPopNow: where the driver has popped ahead of the cursor, completions are assumed to find room at every point of the schedule; `QueueTheorems.CompleteSafeIff` says what happens without it, and for in-order pops and blocking requests from rest the room is proved.
- PopUsed: the same assumption; and a stale token is assumed to start a walk that ends, which `Endings.AlwaysEnds` proves for every guarded run.
- AddNotifyWaitPop: the wait ends because the device is assumed to complete the chain eventually; nothing is said about a device that never does. A driver that has popped ahead of the cursor must see to it that completions find room and that the head is in no popped entry.
- NewQueue: errors of single register accesses; every intermediate state of a call is covered by the trace of register writes.
- QueueSet: the debug assertion that the page number survives the cut to 32 bits; `Mmio.StoredAsAsked` says when it does.
- BufferPool: buffer contents are one value that the device replaces as a whole while it holds the chain.
- Memory ordering: loads and stores are sequentially consistent steps.
- Zeroing of DMA memory, which the allocator does not do and `AvailRing::push` relies on.
- Clearing queues and resetting the device when a driver is dropped; `Mmio.MmioTransport.QueueUnset` is the call it makes.
- The response status that block and GPU requests return, capacity, MAC address and all other configuration space fields.
- `transmit_begin` with `transmit_complete`: the queue operations modelled already, popped out of order as in `QueueRuns.GuardedRunPopsOnce`.
- GPU command contents, frame buffer and cursor image handling.
- The console driver, the PCI transport, and the boot, trap and logging code of the example kernel.
- Device configuration interrupts and `ack_interrupt`.
