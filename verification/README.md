# rv-mini-os, modelled and proved in Dafny

rv-mini-os is a small RISC-V kernel. This project models the parts of it whose
correctness is hardest to see from the code, and proves what they promise:

- **Virtual memory.** Sv39 page tables with reference-counted pages, fork by
  copy-on-write, threads, and tearing a space down (`Types`, `CowModel`,
  `Permissions`, `PageTables`, `Pages`, `Vpages`, `AddressSpaces`, `ForkTree`,
  `FreeTree`, `TaskMemory`, `Sv39`). `CowModel` holds two machines over flat
  address spaces: the lazy one of the kernel, and a simple one in which fork
  copies every page at once. The code, on a class `Memory` with frames, counts and a free list, is
  proved to take the steps of the lazy machine; the lazy machine is proved to
  show what the simple one shows, over every run.
- **The heap allocator** (`HeapLayout`, `HeapSteps`, `Tinyalloc`): the lists of
  blocks against a strip of cells that tiles the heap.
- **The virtio queue** (`Virtqueue`, `VirtqueueRuns`, `VirtqueueOrder`):
  submitters, device, interrupt handler and releasers as interleaved atomic
  steps, with 16-bit indices.
- **The scheduler and what blocks on it** (`Scheduler`, `ReadyQueues`,
  `Fairness`, `Dispatch`, `Sync`, `CircularList`): each section with interrupts
  off is one step. The class `Dispatcher` is the code, proved to take those
  steps; the circular list is proved at the level of its pointers.
- **The file system** (`Bitmap`, `BlockCache`, `FileLayout`, `Files`,
  `Truncation`, `CachedFiles`, `Mkfs`): bitmaps, block cache, block allocation,
  reading, writing and truncating files, and the image builder. `Examples`
  holds runs in which the file system goes wrong.
- **Arithmetic** (`Modular`, `Division`, `Numbers`): shift-and-subtract division,
  shift-and-add multiplication, printing numbers and reading them back.

`Common` holds what several components share. `dafny verify dfyconfig.toml`
checks the whole project.

Ghost parameters and fields carry the specification only. Long invariants are
folded: a quantifier over a dummy `open`, or a value of type `Stage` or
`Verdict`, stands for the predicate until a lemma opens it.

## Model


| member | source | states |
|---|---|---|
| `CowModel.RunRefines` | src/kernel/core/memory/vpages.c:295-385 | over every run of map, fork, fault, store, unmap and free, what every space reads and may write is what it would if fork had copied every page at once |
| `CowModel.ApplyRefines` | src/kernel/core/memory/vpages.c:295-385 | one step of the lazy machine keeps its invariant and is one step of the simple machine, a copy-on-write fault being no step at all |
| `CowModel.Isolation` | src/kernel/core/memory/vpages.c:306-385 | whatever other spaces do, forks of the space and faults of its relatives included, a space keeps reading the same bytes |
| `Permissions.RunPerm` | src/kernel/core/memory/vpages.c:295-385 | over every run a mapped page keeps its permission until it is unmapped, and a trap frame its very entry |
| `Permissions.UserComes` | src/kernel/core/memory/vpages.c:329-369 | user mode gets at a page exactly when it is mapped with U or fork copies it from a parent that has it so, which fork never does at the trap frame |
| `Permissions.RunShields` | src/kernel/core/memory/vpages.c:295-385 | where no space lets user mode in, none does after any run that does not map the page with U |
| `CowModel.ForkFreeRestoresCounts` | src/kernel/core/memory/vpages.c:114-138 | fork, then freeing the child, leaves every page with the counted leaves and the content it had |
| `CowModel.HoldersBounded` | src/kernel/core/memory/pages.c:54-60 | a page has at most one counted leaf per address space, so with fewer than 255 spaces its 8-bit count cannot wrap |
| `TaskMemory.MemoryRefines` | src/kernel/core/memory/vpages.c:295-385 | the run theorem for physical memory: after any run of the code, each space shows what the simple machine shows |
| `AddressSpaces.CountsExact` | src/kernel/core/memory/pages.c:54-101 | a page is on the free list, once, exactly when its count is 0; a mapped page counts its leaves; a page with a writable counted leaf has that leaf as only holder |
| `AddressSpaces.LinkedOnce` | src/kernel/core/memory/vpages.c:57-101 | tables are never shared: two upper entries that link the same page are the same entry, and the page's count is 1 |
| `PageTables.AbsInv` | src/kernel/core/memory/vpages.c:40-101 | a well-formed three-level tree stands for a consistent flat map from page number to leaf |
| `PageTables.RebindOk` | src/kernel/core/memory/vpages.c:84-90 | writing one leaf entry keeps trees, counts and free list well formed and changes exactly that entry of the flat map |
| `PageTables.PutOk` | src/kernel/core/memory/pages.c:91-101 | dropping a reference keeps the invariant and every leaf, and a page that goes back to the free list is mapped nowhere |
| `Pages.Memory.constructor` | src/kernel/core/memory/pages.c:62-72 | the initial memory is well formed, without leaves, with every page outside the kernel image free |
| `Pages.Memory.PageAlloc` | src/kernel/core/memory/pages.c:74-89 | fails exactly on an empty free list; otherwise gives its head, all zero, with a count of 1, the rest of the list, counts and pages untouched, and the invariant holds |
| `Pages.Memory.PageGet` | src/kernel/core/memory/pages.c:54-60 | one more reference, in an 8-bit counter |
| `Pages.Memory.PagePut` | src/kernel/core/memory/pages.c:91-101 | the count falls by one, and at 0 the page goes in front of the free list |
| `Vpages.WalkLeaf` | src/kernel/core/memory/vpages.c:171-187 | finds the leaf entry exactly when the flat map has the page number, and it is that entry |
| `Vpages.VpageMap` | src/kernel/core/memory/vpages.c:57-101 | succeeds exactly when the free list has the tables that are missing; then the flat map changes at that one page number only; otherwise says exactly what is left behind |
| `AddressSpaces.VpageUnmap` | src/kernel/core/memory/vpages.c:189-202 | fails exactly on an unmapped page number; otherwise exactly that leaf goes, it is the unmap step, and the page goes free with its last leaf |
| `AddressSpaces.HandleCow` | src/kernel/core/memory/vpages.c:295-327 | not mapped copy-on-write: a fault error, exactly then; out of memory exactly when the leaf is copy-on-write, the count is not 1 and no page is free; otherwise the fault step: the leaf is writable, its page has the same bytes and no other holder, and no other leaf changed |
| `AddressSpaces.SoleByCount` | src/kernel/core/memory/vpages.c:306-313 | a count of 1 is exactly what tells that the faulting leaf is the page's only holder |
| `AddressSpaces.CopyIn` | src/kernel/core/memory/vpages.c:230-240 | gives the bytes of the page exactly when the user may read there |
| `AddressSpaces.CopyOut` | src/kernel/core/memory/vpages.c:266-276 | succeeds exactly where the user may write, or the page is copy-on-write and is the only user's or can be copied; then a store of the lazy machine, otherwise at most the fault step |
| `ForkTree.CopyLevel` | src/kernel/core/memory/vpages.c:329-369 | after one table, fork has handled exactly the page numbers below it, pages in use keep their roles, global pages their tally and the free list has paid for the new tables; it fails only if the free list cannot cover them all |
| `ForkTree.TreeCopy` | src/kernel/core/memory/vpages.c:371-385 | succeeds exactly when the free list covers the tables the copied leaves need and the child lacks; then it is the fork step of the lazy machine, and each global leaf copied raises its page's count by one |
| `ForkTree.DemandNext` | src/kernel/core/memory/vpages.c:329-369 | the demand for tables grows, with each leaf copied, by exactly the tables its path still misses |
| `ForkTree.CountFits` | src/kernel/core/memory/pages.c:54-60 | with fewer than 255 spaces the 8-bit count of a mapped page has room for one more |
| `FreeTree.TreeFree` | src/kernel/core/memory/vpages.c:114-146 | the free step of the lazy machine: the space's leaves go, pages without holders and all its tables are free, other trees keep theirs |
| `TaskMemory.TaskFork` | src/kernel/core/task/task.c:484-573 | succeeds exactly when there are two free pages and one for each table on the paths to the parent's leaves and the trap frame; then a run of two allocations, an empty root, fork, and mapping the child's trap frame, whose entry has R and W and neither U, X nor G; without two free pages nothing changes |
| `TaskMemory.ForkedImage` | src/kernel/core/task/task.c:517-544 | the child reads and may write, at every page but the trap frame, what the parent did; nobody else sees a change; the child's frame has 0 in a0 |
| `TaskMemory.TaskDestroy` | src/kernel/core/task/task.c:266-290 | unmaps the trap frame, and removes the space exactly when this was its last task; every other leaf and space stays |
| `TaskMemory.TaskThread` | src/kernel/core/task/task.c:499-516 | succeeds exactly with an entry point, a stack and pages for the frame and the tables missing; then the root gains one reference and the frame, with the bytes given, is mapped with R and W and neither U, X nor G, and no other leaf changes; otherwise nothing changes, unless the map ran dry between two tables |
| `TaskMemory.FrameClosed` | src/kernel/core/task/task.c:538-544 | over every run until it is unmapped, a trap frame can be neither read nor written through a user pointer |
| `TaskMemory.MapGlobal` | src/kernel/core/memory/mmap.c:150-160 | mapping a page of the kernel image, such as the trampoline, is the map step and takes no reference |
| `TaskMemory.ForkDestroyRestores` | src/kernel/core/task/task.c:266-290 | forking and destroying the child leaves the same spaces, the same pages in use with the same content, and the same counted leaves |
| `TaskMemory.ForkDestroyCounts` | src/kernel/core/memory/pages.c:54-101 | forking and destroying the child restores every reference count and the set of free pages, but for kernel pages with global leaves, whose growth is given exactly |
| `TaskMemory.ForkAndDestroy` | src/kernel/core/task/task.c:266-290 | the same, for the code of both operations run one after the other, exactly when the pages suffice |
| `TaskMemory.ForkLeaks` | src/kernel/core/memory/vpages.c:356-361 | a run in which one fork and the end of the child leave a kernel page with count 1 where it was 0 |
| `TaskMemory.FailedMap` | src/kernel/core/memory/vpages.c:94-101 | three pages are enough for a map that fails and leaves a valid entry for a free page |
| `Sv39.RebuildIndices` | src/kernel/core/memory/vpages.c:336-338 | the address put together from three table indices has those indices |
| `Sv39.RebuildAddress` | src/kernel/core/memory/vpages.c:40-44 | and rebuilding an address from its indices gives back its page |
| `Sv39.WordRoundTrip` | src/kernel/core/memory/vpages.c:51-54 | page number and flags can be read back from the 64-bit entry |
| `Sv39.ProtectWord` | src/kernel/core/memory/vpages.c:353-354 | clearing W and setting COW in the word is the model's protected entry |
| `Sv39.UnprotectWord` | src/kernel/core/memory/vpages.c:306-323 | both paths of the fault handler write the entry the model says |
| `Sv39.LeafWord` | src/kernel/core/memory/vpages.c:84-90 | the word vpage_map stores is the model's leaf entry |
| `Tinyalloc.HeapTiles` | src/lib/tinyalloc.c:38-113 | the top stays within the limit, and an address lies between the heap's base and its top exactly when some free or used block contains it |
| `Tinyalloc.LiveBlocks` | src/lib/tinyalloc.c:163-224 | live allocations are aligned, within bounds, disjoint from each other and from every free block |
| `Tinyalloc.FreeListSorted` | src/lib/tinyalloc.c:38-113 | the free list is sorted by address and no two of its blocks touch |
| `Tinyalloc.BlocksConserved` | src/lib/tinyalloc.c:69-82 | free, used and blank block records always add up to the number the heap started with |
| `Tinyalloc.AllFreed` | src/lib/tinyalloc.c:140-161 | once everything is freed, one free block covers the whole heap, or none if it is empty |
| `Tinyalloc.RoundsUp` | src/lib/tinyalloc.c:163-168 | a size is rounded to the next multiple of the alignment |
| `Tinyalloc.RunMerges` | src/lib/tinyalloc.c:84-113 | merging one maximal run of touching blocks is what compaction does with it |
| `Tinyalloc.Heap.constructor` | src/lib/tinyalloc.c:116-138 | the heap starts valid, with all records blank |
| `Tinyalloc.Heap.InsertBlock` | src/lib/tinyalloc.c:38-66 | the block goes to its place by address |
| `Tinyalloc.Heap.CompactFree` | src/lib/tinyalloc.c:84-113 | the free list becomes its compacted form and the records it no longer needs are blank |
| `Tinyalloc.Heap.AllocBlock` | src/lib/tinyalloc.c:163-224 | first fit: fails, changing nothing, exactly when no free block has the size or can be the top one, and no new one fits at the top. Otherwise the first such block: as top block it gets the size asked for and the top moves to its end; else it is split, the rest staying free in its place, exactly when a record is blank and the rest reaches the threshold, and is handed out whole otherwise; the free bytes drop by what is handed out |
| `Tinyalloc.Heap.TaFree` | src/lib/tinyalloc.c:140-161 | succeeds exactly on the address of a live block, takes exactly that one off the used list, and its bytes are free again |
| `VirtqueueRuns.InitFreeList` | src/kernel/drivers/blk/virtio_blk.c:166-177 | the initial table is one free chain over all descriptors |
| `VirtqueueRuns.RunKeeps` | src/kernel/drivers/blk/virtio_blk.c:360-489 | the invariant holds over every interleaving of submitters, device, handler and releasers |
| `VirtqueueRuns.Partition` | src/kernel/drivers/blk/virtio_blk.c:360-434 | every descriptor is in the free chain or in exactly one three-descriptor chain in flight, never in both |
| `Virtqueue.SubmitPicks` | src/kernel/drivers/blk/virtio_blk.c:360-396 | a submitter that holds the semaphore finds three descriptors on the real free chain, none of them in use |
| `Virtqueue.SlotsDiffer` | src/kernel/drivers/blk/virtio_blk.c:398-405 | ring positions of requests in flight differ, across 16-bit wrap-around |
| `VirtqueueRuns.PostedOnce` | src/kernel/drivers/blk/virtio_blk.c:436-461 | over every run a request is posted at most once, and its outcome is there exactly if it was |
| `VirtqueueRuns.OutcomeStep` | src/kernel/drivers/blk/virtio_blk.c:436-461 | a post goes to a request without outcome and gives it its own length; no other step touches outcomes |
| `VirtqueueRuns.ReturnedOnce` | src/kernel/drivers/blk/virtio_blk.c:463-489 | a request that returned was completed by the device once, with the length it returned |
| `VirtqueueRuns.HandlerDone` | src/kernel/drivers/blk/virtio_blk.c:436-461 | the handler's index meets the device's exactly when every completion was seen, and then none is pending |
| `VirtqueueRuns.WalkChain` | src/kernel/drivers/blk/virtio_blk.c:415-434 | the release loop walks exactly the request's chain and ends at its tail |
| `VirtqueueOrder.PointStep` | src/kernel/drivers/blk/virtio_blk.c:360-489 | every step moves its own request one point ahead, from reserving a slot to returning the length, and no other request |
| `VirtqueueOrder.RankCounts` | src/kernel/drivers/blk/virtio_blk.c:463-489 | over every run a request is as far as the number of steps about it |
| `VirtqueueOrder.DeviceOrder` | src/kernel/drivers/blk/virtio_blk.c:398-405 | over every run the device finds the requests in the order of submission, none twice or left out, and all of them when it sees nothing new |
| `VirtqueueOrder.HandlerOrder` | src/kernel/drivers/blk/virtio_blk.c:436-461 | over every run the handler posts what the device reported, to the request it is for, in the order of the reports, and all of it when it stops |
| `Scheduler.RunKeeps` | src/kernel/core/sched/scheduler.c:100-426 | over every run the queues are well formed, the best queue is tracked, and the active task heads it or a switch is pending |
| `Scheduler.ActiveIsBest` | src/kernel/core/sched/scheduler.c:174-193 | from the first idle task on: the active task heads its queue, and with preemption on, or no switch pending, no ready task is better |
| `Scheduler.SwitchOutFinds` | src/kernel/core/sched/scheduler.c:201-210 | a switch-out never picks from an empty queue and restores the invariant |
| `Scheduler.LateSwitchOut` | src/kernel/core/sched/scheduler.c:416-426 | the switch-out a task finishes when it comes back from blocking changes nothing |
| `ReadyQueues.StepEffect` | src/kernel/core/sched/scheduler.c:100-426 | what each step does to every ready queue, the priorities, the running task and a pending switch, said of the queues themselves: a woken task is last in its queue, the best queue is turned, a task that leaves does so with the others in their order |
| `ReadyQueues.ReadyExactly` | src/kernel/core/sched/scheduler.c:281-426 | after a step the ready tasks are those that were, with the admitted or woken one, without the one that blocks, sleeps, ends or is destroyed |
| `Fairness.BoundedWait` | src/kernel/core/sched/scheduler.c:100-109 | a task at place i of the top queue is active after at most i turns of that queue, whatever arrives |
| `Fairness.PreemptedKeepsPlace` | src/kernel/core/sched/scheduler.c:326-342 | the head of a preempted queue is still its head when the queue is on top again |
| `Fairness.PendingHead` | src/kernel/core/sched/scheduler.c:301-324 | while a switch is pending, the head of the top queue runs next exactly when it is alone there |
| `Fairness.PendingHeadExample` | src/kernel/core/sched/scheduler.c:301-324 | a run in which the head is passed over |
| `Dispatch.Dispatcher.constructor` | src/kernel/core/task/task.c:174-183 | the scheduler starts with the idle task alone, active |
| `Dispatch.Dispatcher.SchedulerAdmit` | src/kernel/core/sched/scheduler.c:285-294 | is the admit step, with its effect on the queues, and keeps the invariant |
| `Dispatch.Dispatcher.SchedulerReady` | src/kernel/core/sched/scheduler.c:326-342 | is the ready step: the task is in the queue of its priority, last if it was in none; keeps the invariant |
| `Dispatch.Dispatcher.SchedulerRotate` | src/kernel/core/sched/scheduler.c:310-324 | is the rotate step: the head of the best queue goes to its end and the next one runs |
| `Dispatch.Dispatcher.EnablePreempt` | src/kernel/core/sched/scheduler.c:301-308 | is the enable step: a delayed switch is taken when the count falls to 0 |
| `Dispatch.Dispatcher.RefreshHighest` | src/kernel/core/sched/scheduler.c:127-142 | finds the best non-empty queue |
| `Dispatch.Dispatcher.BlockOn` | src/kernel/core/sched/scheduler.c:405-414 | is the block step: the task that was active is not ready any more, every other is what it was, and the best one runs |
| `Dispatch.Dispatcher.BlockOnLocked` | src/kernel/core/sched/scheduler.c:416-426 | the same, while a spinlock is held |
| `Dispatch.Dispatcher.SchedulerExit` | src/kernel/core/sched/scheduler.c:344-354 | is the exit step: the task that was active is not ready any more, the parent is if it was to be woken, every other task is what it was |
| `Dispatch.Dispatcher.SchedulerForget` | src/kernel/core/task/task.c:57-93 | is the destroy step: the task leaves the ready queue and the sleepers, the others keeping their order; the sleepers stay sorted and all of them tasks |
| `Dispatch.Dispatcher.SchedulerSleep` | src/kernel/core/sched/scheduler.c:383-393 | the active task is not ready any more and is among the sleepers, which stay sorted by wake-up time |
| `Dispatch.Dispatcher.WakeSleeping` | src/kernel/core/sched/scheduler.c:395-403 | exactly the due sleepers become ready, behind the tasks that are, and exactly the others stay, sorted |
| `Dispatch.InsertedSorted` | src/kernel/core/sched/scheduler.c:231-235 | a sorted queue stays sorted and gains exactly the new sleeper, behind all that do not wake later |
| `Sync.MutexFifo` | src/kernel/core/sync/mutex.c:34-93 | over every run, with waiters destroyed at any time, a mutex is locked exactly when owned, has waiters only while locked, and is given in order of asking |
| `Sync.MutexEnds` | src/kernel/core/sync/mutex.c:70-93 | over every run the grants that have ended are as many as the releases by the owner |
| `Sync.SemConserves` | src/kernel/core/sync/semaphore.c:23-72 | over every run, with waiters destroyed at any time, initial value plus posts is count plus grants, and the count is positive only when nobody waits |
| `Sync.SemBound` | src/kernel/core/sync/semaphore.c:23-72 | at most initial plus posts grants, and exactly that many while a task waits |
| `Sync.Mutex.Acquire` | src/kernel/core/sync/mutex.c:58-68 | takes a free mutex at once; otherwise the active task is last in the wait queue and not ready, and the owner stays |
| `Sync.Mutex.TryAcquire` | src/kernel/core/sync/mutex.c:47-56 | succeeds exactly on a free mutex and never blocks |
| `Sync.Mutex.Release` | src/kernel/core/sync/mutex.c:70-93 | without waiters the mutex is free; with some the first is owner, off the wait queue and ready; by a task that is not the owner nothing changes, in the mutex or the scheduler |
| `Sync.Mutex.Drop` | src/kernel/core/task/task.c:57-65 | a destroyed waiter leaves the queue; the mutex and the other waiters are as before |
| `Sync.Semaphore.Wait` | src/kernel/core/sync/semaphore.c:43-54 | takes one when there is one; otherwise the active task is last in the wait queue and not ready |
| `Sync.Semaphore.TryTake` | src/kernel/core/sync/semaphore.c:32-41 | succeeds exactly on a positive count and never blocks |
| `Sync.Semaphore.Post` | src/kernel/core/sync/semaphore.c:56-72 | the first waiter is off the wait queue and ready and the count stays, or without waiters the count is one more |
| `Sync.Semaphore.Withdraw` | src/kernel/core/task/task.c:57-65 | the same, for a semaphore |
| `Sync.LockUnlock` | src/kernel/core/sync/spinlock.c:14-25 | taking and giving back a spinlock changes nothing |
| `CircularList.InsertBefore` | src/lib/clist.c:16-25 | relinks the pointers to the ring with the node before the given one; a node in a list is left alone |
| `CircularList.InsertAfter` | src/lib/clist.c:27-36 | the same, behind the given one |
| `CircularList.Remove` | src/lib/clist.c:48-55 | the ring without the node, and the node alone |
| `CircularList.PushBack` | src/lib/clist.c:38-41 | the node becomes the last |
| `CircularList.PushFront` | src/lib/clist.c:43-46 | the node becomes the first |
| `CircularList.PopFront` | src/lib/clist.c:142-149 | detaches and gives the first node, or none |
| `CircularList.Find` | src/lib/clist.c:97-108 | the first member whose record satisfies the predicate |
| `CircularList.FindRev` | src/lib/clist.c:110-122 | the last member whose record satisfies it |
| `CircularList.InsertSorted` | src/lib/clist.c:87-95 | the node goes in front of the first member whose record must come after its own |
| `CircularList.SortedKept` | src/lib/clist.c:87-95 | a list sorted by a key of its records stays sorted, equal keys in order of arrival |
| `CircularList.ForEachAndDel` | src/lib/clist.c:124-140 | every member and the sentinel end up alone, and the first one whose record fails is returned |
| `Bitmap.FindFirstZero` | src/lib/bitmap.c:6-23 | the first clear bit, found in 64-bit words, is the first clear bit in terms of the bytes that are set and cleared |
| `Bitmap.MarkedIs` | src/lib/bitmap.c:25-39 | setting or clearing a bit changes that bit and no other |
| `BlockCache.Cache.GetBlk` | src/kernel/core/fs/bcache.c:137-159 | fails exactly when the block is not cached and every buffer is in use or dirty; otherwise the one buffer of that block, recycled only as the clean unused one nearest to the end of the list; what users see is unchanged |
| `BlockCache.Cache.Read` | src/kernel/core/fs/bcache.c:161-180 | fails exactly as GetBlk does; otherwise the buffer holds what was last stored in the block, or the disk's content, and the other buffers are as before |
| `BlockCache.Cache.Store` | src/kernel/core/fs/bcache.c:182-185 | exactly that block reads as the new data |
| `BlockCache.Cache.Sync` | src/kernel/core/fs/bcache.c:187-202 | writing back changes nothing users see |
| `BlockCache.Cache.Release` | src/kernel/core/fs/bcache.c:204-214 | one user less, and the buffer is first in the list, the others in their order; nothing users see changes |
| `BlockCache.RecyclesOldest` | src/kernel/core/fs/bcache.c:111-122 | over every run from an empty cache, the buffer that is recycled was, of those that may be, released longest ago in the run, or never |
| `BlockCache.TwoReads` | src/kernel/core/fs/bcache.c:137-214 | a run: after one block was read and released, the next one gets another buffer |
| `BlockCache.Cache.Invalidate` | src/kernel/core/fs/bcache.c:124-135 | the block reads as the disk has it, every other as before; other buffers and all reference counts stay |
| `FileLayout.NoSharing` | src/kernel/core/fs/inode.c:321-360 | a block is in two slots exactly when they are one slot, of the same file or of block 0 for two files without an indirect block; and it is nobody's indirect block |
| `FileLayout.SlotsMarked` | src/kernel/core/fs/balloc.c:17-48 | every block in a slot lies in the data region and is marked in the bitmap |
| `Files.Volume.FindFree` | src/kernel/core/fs/balloc.c:17-48 | the first unmarked data block, or none when all are marked |
| `Files.Volume.Balloc` | src/kernel/core/fs/balloc.c:73-89 | the first unmarked block, which no slot had, now marked and clear; fails exactly on a full disk |
| `Files.Volume.GetData` | src/kernel/core/fs/inode.c:321-376 | the slot's block, allocated if it had none, nothing else changed and the disk in order; none exactly past the last slot or on a full disk, where the error code is left in the slot; without an indirect block the slot is one of block 0 |
| `Files.Volume.Write` | src/kernel/core/fs/inode.c:475-532 | overwrites exactly the bytes that fit and grows the file to them; other files keep their bytes, but for slots of block 0 they share with this one, which get the new bytes; all fit, and the disk stays in order, exactly when the missing slots do not outnumber the blocks left; a short write stops at the first slot for which none is left |
| `Files.NotOverlaid` | src/kernel/core/fs/inode.c:475-532 | another file keeps all its bytes when either of the two has an indirect block, or the write or the other file stays within twelve blocks |
| `Files.Volume.Read` | src/kernel/core/fs/inode.c:534-577 | fails exactly past the end; otherwise the bytes of the file, across any block boundary |
| `Files.Volume.Bfree` | src/kernel/core/fs/balloc.c:91-95 | the cached copy of any block is dropped for the disk's; then the mark of a data block is cleared, no other mark, and only of a data block |
| `Truncation.Truncate` | src/kernel/core/fs/inode.c:378-394 | empties the file; its blocks are not marked any more, on a disk in order or with an indirect block; every other file keeps its slots, its blocks with their bytes and marks, and its indirect block exactly when the truncation is harmless: the file has an indirect block, or block 0 is clear or nobody else's table and what it names, bitmap blocks included, leaves the others' blocks marked and unchanged; a disk in order stays so exactly when the file has an indirect block or no other file without one is longer than twelve blocks |
| `Truncation.HarmlessIs` | src/kernel/core/fs/inode.c:296-319 | on a disk in order that is so exactly when the file has an indirect block, block 0 is clear, or every other file has an indirect block |
| `Files.SharedExactly` | src/kernel/core/fs/inode.c:335-360 | a block put into block 0 for one file keeps the disk in order and is seen there by exactly the other files without an indirect block |
| `Examples.SharedBlock` | src/kernel/core/fs/inode.c:335-360 | a run: a file written past twelve blocks has its last block in another, empty file as well |
| `Examples.TruncateOther` | src/kernel/core/fs/inode.c:296-319 | the run goes on: truncating the empty file takes the last block from the other one, whose size stays |
| `Examples.FullDisk` | src/kernel/core/fs/inode.c:321-333 | a run: the second block on a disk with room for one leaves the error code as a block number, and the disk out of order |
| `CachedFiles.Mounted.Read` | src/kernel/core/fs/inode.c:534-577 | with inode table in memory and every block, bitmap and slot table through the cache, the bytes of the file; none only when no buffer can be had, and never while one can |
| `CachedFiles.Mounted.Write` | src/kernel/core/fs/inode.c:475-532 | the allocation, the slot tables and the data all go through the cache, which then shows the volume that Files.Volume.Write describes; unless the cache panics it succeeds exactly when the write fits, and with four buffers for each block touched it does not panic |
| `CachedFiles.Mounted.WriteRead` | src/kernel/core/fs/inode.c:475-577 | what is written through the cache is read back, whatever passes through in between; with the buffers for it, exactly when the write fits |
| `Mkfs.RoundTrip` | src/tools/mkfs.c:249-310 | the image is built exactly when the files fit; then inode_read gives back every file and the root directory, whose entries name each file and its inode |
| `Mkfs.DirectoryReads` | src/tools/mkfs.c:218-247 | in the directory every file has an entry with its name, zeros behind it, and the number of its inode |
| `Mkfs.Builder.Build` | src/tools/mkfs.c:283-310 | the image meets the kernel's invariant, block 0 is clear, every file and the directory have their content, the inode bitmap has exactly the inodes used, and no block past the last one used is marked |
| `Mkfs.Builder.WriteBm` | src/tools/mkfs.c:119-133 | both bitmaps are written in front of the data, and no file changes |
| `Mkfs.Builder.AllocBlock` | src/tools/mkfs.c:76-86 | the next block, exactly while one bitmap block and the disk have room |
| `Mkfs.Builder.AddFile` | src/tools/mkfs.c:144-212 | exactly when it is small enough and blocks and inodes suffice, a file with these bytes, others untouched |
| `Mkfs.Builder.AddEntry` | src/tools/mkfs.c:218-247 | exactly when the name and the directory block allow it, one more entry at the directory's end |
| `Mkfs.PrefixBits` | src/tools/mkfs.c:119-133 | the written bitmap has exactly the first bits set |
| `Division.ShiftUp` | src/lib/stdfct.c:46-47 | the divisor is shifted up without losing a bit until twice it exceeds the dividend |
| `Division.UdivUmod` | src/lib/stdfct.c:38-53 | quotient and remainder, for words of any width; both 0 for a zero divisor |
| `Division.Umul` | src/lib/stdfct.c:1-16 | the product modulo the word size |
| `Division.DivMod` | src/lib/stdfct.c:65-89 | signed division truncates toward zero and the remainder has the dividend's sign |
| `Division.Mul` | src/lib/stdfct.c:18-36 | the signed product, wrapped |
| `Numbers.PrintNum` | src/lib/doprnt.c:513-579 | the characters emitted are padding, sign, prefix, precision zeros and digits as the flags say |
| `Numbers.WidthHeld` | src/lib/doprnt.c:535-542 | the field is as wide as asked, wider only when the number needs it |
| `Numbers.SignFirst` | src/lib/doprnt.c:545-579 | the sign is the first character behind the blanks and takes one place of the width; blanks are in front, or behind when the number is on the left |
| `Numbers.DigitsFit` | src/lib/doprnt.c:529-533 | the digits of every word fit the 64-character buffer |
| `Numbers.StrToUl` | src/lib/strtoul.c:20-53 | blanks and prefix skipped, then the value of the longest run of digits modulo 2^64, and where it ends |
| `Numbers.RoundTrip` | src/lib/strtoul.c:20-53 | whatever width, padding and precision, reading a printed number in its base gives it back and stops at its end |
| `Numbers.RoundTripAlternate` | src/lib/doprnt.c:522-527 | octal and hexadecimal with the alternate form are read back with base 0 |
| `Numbers.RoundTripDecimal` | src/lib/strtoul.c:31-36 | a decimal is read back with base 0 exactly when no zero was put in front of it or it is below 8 |
| `Numbers.DecimalAsOctal` | src/lib/strtoul.c:31-36 | ten printed with width 3 and zeros is read as eight |

## Findings

What the code does not meet, with an input and the exact condition.

| what fails | where | shown by |
|---|---|---|
| A failed `vpage_map` can put a table back while the root still points to it: exactly when both lower tables are missing and one free page is left. | src/kernel/core/memory/vpages.c:94-101 | `Vpages.VpageMap`, with the run `TaskMemory.FailedMap` |
| Fork takes a reference for each global leaf, and nobody gives it back: after fork and destroy the 8-bit count of a kernel page has grown by the number of global leaves the parent has on it. Every other count is restored. | src/kernel/core/memory/vpages.c:356-361, src/kernel/core/memory/vpages.c:123-130 | `ForkTree.TreeCopy`, `TaskMemory.ForkDestroyCounts`, with the run `TaskMemory.ForkLeaks` |
| A delayed preemption rotates the top queue, so its head is passed over: exactly when it is not alone there. | src/kernel/core/sched/scheduler.c:301-324 | `Fairness.PendingHead`, with the run `Fairness.PendingHeadExample` |
| On a full disk the error code of the allocator is stored in the slot, because it is compared as an unsigned number: exactly when the slots a write needs outnumber the blocks left. | src/kernel/core/fs/inode.c:321-360 | `Files.Volume.GetData`, `Files.Volume.Write`, with the run `Examples.FullDisk` |
| A file that grows past twelve blocks without an indirect block uses block 0 as its table, and shares those slots with exactly the other files without one. | src/kernel/core/fs/inode.c:335-360 | `FileLayout.NoSharing`, `Files.SharedExactly`, with the run `Examples.SharedBlock` |
| Truncating a file without an indirect block frees what block 0 names, and takes blocks from other files: on a disk in order exactly when block 0 is not clear and another file has no indirect block; on any other disk also when block 0 names a block of theirs or a bitmap block that the disk has without their marks. | src/kernel/core/fs/inode.c:296-319, src/kernel/core/fs/balloc.c:91-95 | `Truncation.Truncate`, `Truncation.HarmlessIs`, with the run `Examples.TruncateOther` |
| A decimal printed with leading zeros and read with base 0 is taken for octal: exactly when a zero was put in front and the number is 8 or more. | src/lib/strtoul.c:31-36 | `Numbers.RoundTripDecimal`, with the input of `Numbers.DecimalAsOctal` |

## Left out

- Translation look-aside buffer flushes, control registers and the assembly of context switches and traps.
- Kernel-only fields of the trap frame (`tframe_init`).
- AddressSpaces.CopyIn: covers a range within one page, as get_pa_from_va does; the string variants and ranges over several pages are not modelled.
- AddressSpaces.CopyOut: the same restriction to one page.
- AddressSpaces.VpageUnmap: excludes global leaves, whose pages have no count of their leaves; task_destroy, its only caller, unmaps trap frames.
- ForkTree.TreeCopy: when it fails, the tables and leaves made so far are not described, nor is the clean-up of task_clone that follows.
- TaskMemory.TaskFork: counts are exact with fewer than 254 address spaces, far above the kernel's task limit; beyond, the 8-bit count could wrap. A fork that runs out of pages after its first two promises nothing about memory.
- Loading ELF segments and building the argument stack in task_exec; descriptor tables and open files (`file_get`, `file_clone`, file.c), path look-up (fs.c) and the system call layer.
- Tinyalloc.Heap.AllocBlock: requires a size above 0; a request for 0 bytes makes an empty block whose address another block can share. Address wrap-around at the end of the address space is not modelled, and rounding by mask is modelled as rounding to a multiple.
- The virtio device is the environment: it may complete requests in any order. Feature negotiation, queue set-up and the panic on a failed request are not modelled.
- scheduler_block_on_with_timeout, scheduler_exit_group and 32-bit wrap-around of wake-up times.
- Fairness.BoundedWait: no claim is made about time slices between ticks; a turn is a rotation or a switch-out.
- Dispatch.Dispatcher.WakeSleeping: requires that the caller has the best priority, as the tick daemon has; another caller could be switched away from in the middle of the loop.
- CircularList.ForEachAndDel: the callback is a predicate on the record; what it does to records and other lists is not modelled.
- Block mutexes and input/output errors of the block cache; the panic when no buffer can be had is an outcome.
- Files.Volume.Write: failing user copies and input/output errors are not modelled.
- Truncation.Truncate: requires that the disk is in order but for block 0; input/output errors are not modelled.
- CachedFiles.Mounted.Write: block accesses are made one at a time, where the code holds the indirect block while it allocates; the order of release differs, what the blocks hold does not. After a write that does not fit nothing is said about the cache.
- The inode cache and allocating and freeing inodes in the kernel.
- Mkfs.RoundTrip: inodes are records beside the blocks, not bytes of the inode table; names are given without their path.
- Numbers.PrintNum: the other conversions, floating point and the `%b` bit fields; the pointer conversion's prefix.
- Division.DivMod: excludes the minimum value, whose negation C leaves undefined.
