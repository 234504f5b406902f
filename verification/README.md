# A verified model of a small teaching kernel

This project models four layers of a 64-bit teaching kernel, bottom to top, and
proves what each promises to the layer above it.

1. **Memory.** The kernel is compiled with one of two allocators. The *buddy*
   allocator (`Powers`, `BuddyBlocks`, `BuddyAllocator`, `BuddyHistories`) keeps
   intrusive free lists per order, splits on allocation and merges with the
   exclusive-or buddy on release. The *bitmap* allocator (`BitmapCells`,
   `BitmapAllocator`) is next-fit over boundary-coded cells. `KernelHeap` shows
   that both meet one contract, which is all the layers above rely on.
2. **Queues.** `LinkedQueue` is the linked queue over heap nodes, proved to be a
   sequence; `QueueMoves` shows that moving or rotating processes can never
   lose one for lack of memory. `QueueSystem` extends that to any number of queues
   over one heap, and `QueueRefinement` to whole runs of the kernel on its four
   process queues and the wait queues of all semaphores.
3. **Processes, scheduler, semaphores.** `Processes` is the kernel as a state
   machine: system calls run with interrupts off
   (`Kernel/syscall/syscallDispatcher.c:252`), so each operation up to its yield
   is one step. `ProcessSafety` proves what every step keeps; `ProcessLaws`,
   `SemaphoreLaws`, `FairScheduling` and `TimeSlices` prove what follows for whole
   runs, `FieldLaws` what an operation may change at all. `LostProcesses` and
   `Stranding` say exactly when the kernel loses track of a process, and
   `KernelRuns` gives runs that get there. `ProcessManager` is the code with its
   fields updated in place, its queues as sequences, each method proved to compute
   its step; `ProcessListing` supports its pid scan.
4. **Pipes and the MVar program.** `PipeProtocol` interleaves any number of
   readers, writers and clearers at every semaphore operation; `PipeSafety`,
   `PipeTransfers` and `PipeBuffers` prove conservation, FIFO order, completeness,
   progress, and which cells of a reader's buffer are written; `PipeStaleness` and
   `StaleReads` say exactly when a read can miss a byte, `PipeFailures` what a
   failed wait does. `PipeOnKernel` runs the pipe on the kernel's semaphores.
   `MVar`, `MVarSafety` and `MVarValues` do the same for the one-token protocol
   that writers and readers run over two such pipes.

`dafny verify dfyconfig.toml` checks the whole project.

## Assumptions

- *Buddy*: the heap starts at `HEAP_START_ADDRESS`; the size handed to
  createMemoryManager is above 32 and at most `2^29` bytes (the kernel passes
  `HEAP_SIZE`, which rounds up to `2^29`); freeMemory gets NULL or the payload
  address of a current block. Containment is in the rounded region, which ends
  beyond `HEAP_END_ADDRESS`.
- *Bitmap*: a request whose size truncates to 0 blocks is made only when
  `current` is inside the bitmap and the last cell is FREE; a freed address is not
  past the payload area.
- *Closed semaphores*: nobody waits on or posts to a slot that was closed and not
  opened again. The slot keeps a pointer to its freed queue; the model, where such
  a use is possible at all, treats the slot as one without a queue.
- *Semaphores, in `SemaphoreTheorem` only*: whoever has to wait is ready, waits on
  an open slot and finds memory for its queue node; no semaphore is closed while it
  has waiters; no semaphore waiter is killed. `WaitQueuesIff`, `StepStrands`,
  `StrandedForever` and `KilledWaiterAbsorbsPost` say what happens otherwise, and
  `LedgerTheorem` needs none of it.
- *Processes*: processes created while idle is current are created by main before
  the first tick, and find memory for their queue node. Pids and counters do not
  overflow.
- *Pipes and MVar*: the pipes are open, no process inside a pipe operation is
  killed, and the allocations inside `wait` succeed. The pipe operations ignore a
  failed wait and go on without token or mutex; `SlipBreaks` and
  `SlippedWriteIsLost` say what that does.

## Where the code departs from its documentation or its intent

The model follows the code.

- `waitpid` is written to return the reaped child's pid. `kill` reaps its victim
  at once (`Kernel/processes/scheduler.c:247-250`), so it always returns -1
  (`WaitpidReturnsMinusOne`).
- The repository README calls priority 5 the maximum. `calculateQuantum` gives it
  the shortest slice (`LargerNumberLessTime`).
- The repository README gives 16 bytes as the smallest buddy block; the code uses
  64.
- A process's record of whom it last waited for outlives the call, so a
  later kill of that child also wakes a parent that was since blocked by hand
  (`KillWakesExactly`, `StaleWakeUp`).
- A process created with priority 6, or without memory for its queue node, gets a
  pid and is in no queue: it never runs, is not listed and cannot be killed
  (`CreatedIsQueued`, `OrphanForever`, `PrioritySixIsLost`).
- `wait` ignores a failed enqueue and blocks its caller all the same, for lack of
  memory or because the slot was never opened; closing a semaphore strands its
  waiters too. Nothing but a kill releases them, and the shell cannot be killed
  (`WaitQueuesIff`, `StepStrands`, `StrandedForever`, `ShellStranded`).
- A killed waiter's pid stays queued and absorbs the next post
  (`KilledWaiterAbsorbsPost`, `LostPost`); a post reaches the first waiter if and
  only if that is still blocked by semaphore (`PostReaches`).
- For a child of idle, `kill` reads the parent field of the PCB it has just
  freed (`Kernel/processes/scheduler.c:248`); nothing was allocated in between, so
  the model takes the stale value as read. Such a child exists only if idle
  creates a process other than the first (`NoIdleChildren`, `IdleChildExists`).
- pipeClear discards bytes but not their tokens, so later reads can miss bytes and
  leave holes in their buffers (`StepStale`, `DiscardedIsMissed`, `QuietExactly`,
  `BufferExact`, `HoleInBuffer`).
- The bitmap allocator truncates sizes to 32 bits (`TruncatedRequest`).
- A request for 0 bytes is refused by the buddy allocator; the bitmap allocator
  refuses it or goes on to write outside the bitmap (`Search`).

## Model

| member | source | states |
|---|---|---|
| `Powers.XorIsFlip` | Kernel/Memorymanager/BuddyMemoryManager.c:196-196 | Exclusive-or with a power of two flips exactly that bit of the position. |
| `Powers.BuddyAddress` | Kernel/Memorymanager/BuddyMemoryManager.c:196-197 | For a position aligned to `2^k`, `pos ^ 2^k` is the other half of the enclosing aligned block of twice the size, and the lower of the two is where that block starts. |
| `BuddyBlocks.SplitTiling` | Kernel/Memorymanager/BuddyMemoryManager.c:98-104 | Replacing a block by its two halves keeps the blocks disjoint, aligned, and covering the whole region. |
| `BuddyBlocks.MergeTiling` | Kernel/Memorymanager/BuddyMemoryManager.c:203-210 | Replacing two buddies by their parent keeps the blocks disjoint, aligned, and covering the whole region. |
| `BuddyBlocks.BuddyIsTile` | Kernel/Memorymanager/BuddyMemoryManager.c:195-199 | In every tiling, the buddy address of a block below the top order is where a current block starts, so the header read while merging is a real one; that block is no larger than the buddy. |
| `BuddyBlocks.ClearInsideFree` | Kernel/Memorymanager/BuddyMemoryManager.c:147-163 | When no two equal buddies are free, every aligned range clear of live blocks lies inside one single free block. |
| `BuddyBlocks.FreeIffMaximalClear` | Kernel/Memorymanager/BuddyMemoryManager.c:195-213 | A block is free if and only if it is clear of live blocks and its parent is not: the canonical form of the heap. |
| `BuddyBlocks.FreeDetermined` | Kernel/Memorymanager/BuddyMemoryManager.c:98-104 | Two canonical heaps with the same live blocks have the same free blocks. |
| `BuddyBlocks.EmptyHeapIsWhole` | Kernel/Memorymanager/BuddyMemoryManager.c:195-213 | A canonical heap with no live block is one free block of the top order. |
| `BuddyAllocator.BuddyManager.constructor` | Kernel/Memorymanager/BuddyMemoryManager.c:106-123 | One free block of the least order holding `size` bytes; nothing live; invariant established. |
| `BuddyAllocator.BuddyManager.CreateBlock` | Kernel/Memorymanager/BuddyMemoryManager.c:44-51 | Pushes the header on the list of its order; every list stays a proper chain. |
| `BuddyAllocator.BuddyManager.RemoveBlock` | Kernel/Memorymanager/BuddyMemoryManager.c:62-88 | Unlinks the block if listed, marks it OCCUPIED, changes no other order or status; a block that is not listed changes nothing. |
| `BuddyAllocator.BuddyManager.SplitBlock` | Kernel/Memorymanager/BuddyMemoryManager.c:98-104 | Splits the first free block of an order; free and live blocks still tile the region and only the new left half may break the canonical form. |
| `BuddyAllocator.BuddyManager.NeededOrder` | Kernel/Memorymanager/BuddyMemoryManager.c:134-141 | The least order, not below 6, whose blocks hold the request and the header. |
| `BuddyAllocator.BuddyManager.NextOrder` | Kernel/Memorymanager/BuddyMemoryManager.c:148-153 | Finds the first order above with a free block, all lists below it empty, and 0 only if no free block is large enough. |
| `BuddyAllocator.BuddyManager.Provide` | Kernel/Memorymanager/BuddyMemoryManager.c:147-163 | Splits the best fit: the block offered starts where the first of the smallest large enough free blocks starts; otherwise nothing changed and no free block is large enough. |
| `BuddyAllocator.BuddyManager.AllocMemory` | Kernel/Memorymanager/BuddyMemoryManager.c:125-172 | Complete: succeeds if and only if the size is in range and some aligned range of the least sufficient order is clear of live blocks; then hands out such a block, the start of the first among the smallest free blocks that are large enough, and nothing else changes hands; NULL changes nothing. |
| `BuddyAllocator.BuddyManager.Mergeable` | Kernel/Memorymanager/BuddyMemoryManager.c:195-201 | The status and order read at the exclusive-or address decide exactly whether the buddy is a free block of the same order. |
| `BuddyAllocator.BuddyManager.Merge` | Kernel/Memorymanager/BuddyMemoryManager.c:203-210 | Both buddies leave their lists and the left header becomes that of the parent; the invariant with one block in transit holds again. |
| `BuddyAllocator.BuddyManager.Coalesce` | Kernel/Memorymanager/BuddyMemoryManager.c:195-211 | The merge loop terminates with a block whose buddy is not free. |
| `BuddyAllocator.BuddyManager.FreeMemory` | Kernel/Memorymanager/BuddyMemoryManager.c:174-214 | Exactly the addressed block stops being live and the heap is canonical again; freeing NULL or a free block changes nothing. |
| `BuddyAllocator.BuddyManager.GetMemoryInfo` | Kernel/Memorymanager/BuddyMemoryManager.c:216-223 | Reports the region, the bytes of the live blocks, and the bytes of the free blocks. |
| `BuddyAllocator.FitsHasFree` | Kernel/Memorymanager/BuddyMemoryManager.c:147-157 | If a request fits anywhere, some free block is at least as large as needed. |
| `BuddyHistories.SameLiveSameFree` | Kernel/Memorymanager/BuddyMemoryManager.c:195-213 | Two valid heaps with the same live blocks have the same free blocks, whatever led to them. |
| `BuddyHistories.DrainedIsWhole` | Kernel/Memorymanager/BuddyMemoryManager.c:195-213 | A valid heap without live blocks is one free block of the top order. |
| `BuddyHistories.Serve` | Kernel/Memorymanager/BuddyMemoryManager.c:125-214 | After any request, the addresses the client holds are exactly those of the live blocks, each once. |
| `BuddyHistories.Replay` | Kernel/Memorymanager/BuddyMemoryManager.c:106-214 | Every script of requests keeps the invariant; a client that holds nothing, having freed in any order, has left the heap whole and `used_mem` 0. |
| `BuddyHistories.TwoHistories` | Kernel/Memorymanager/BuddyMemoryManager.c:106-214 | Any two histories ending with the same live blocks end with the same free blocks. |
| `BuddyHistories.AllocThenFree` | Kernel/Memorymanager/BuddyMemoryManager.c:125-214 | Allocating and freeing the result restores the live and the free blocks. |
| `BitmapCells.RunsDisjoint` | Kernel/Memorymanager/bitmapMemoryManager.c:81-91 | Two coded groups that share a cell are the same group. |
| `BitmapCells.MarkedRepresents` | Kernel/Memorymanager/bitmapMemoryManager.c:81-91 | Marking a run of free cells adds exactly that group, disjoint from all others. |
| `BitmapCells.ClearedRepresents` | Kernel/Memorymanager/bitmapMemoryManager.c:172-190 | Clearing a live group removes exactly that group. |
| `BitmapCells.DecodesToLive` | Kernel/Memorymanager/bitmapMemoryManager.c:117-146 | Read left to right, the bitmap is a concatenation of FREE, SINGLE and START USED* END, and decodes to exactly the live groups. |
| `BitmapCells.UsedIsAllocated` | Kernel/Memorymanager/bitmapMemoryManager.c:85-88 | The non-free cells number exactly the blocks of the decoded groups. |
| `BitmapAllocator.SizeToBlockQty` | Kernel/Memorymanager/bitmapMemoryManager.c:29-32 | The least number of blocks that holds the size. |
| `BitmapAllocator.FreeRunBound` | Kernel/Memorymanager/bitmapMemoryManager.c:121-123 | A run of k free cells leaves k cells unused: the early check of the source refuses only hopeless requests. |
| `BitmapAllocator.TruncatedRequest` | Kernel/Memorymanager/bitmapMemoryManager.c:119-119 | The blocks a request gets hold it if and only if its size fits 32 bits, and are none exactly for multiples of 2^32. |
| `BitmapAllocator.BitmapManager.constructor` | Kernel/Memorymanager/bitmapMemoryManager.c:93-115 | All cells FREE, nothing live. |
| `BitmapAllocator.BitmapManager.FindFreeBlocks` | Kernel/Memorymanager/bitmapMemoryManager.c:53-71 | The address of the lowest run of the needed length in the range, and 0 exactly when there is none; for no blocks, an address past the range if and only if the range is empty or its last cell is in use. |
| `BitmapAllocator.BitmapManager.Search` | Kernel/Memorymanager/bitmapMemoryManager.c:125-133 | Next-fit over both searches; a request for no blocks is refused if and only if `current` is inside the bitmap and the last cell is FREE, and otherwise answered with an address past the payload area. |
| `BitmapAllocator.BitmapManager.MarkGroupAsUsed` | Kernel/Memorymanager/bitmapMemoryManager.c:81-91 | Writes START USED* END over the run and counts its cells. |
| `BitmapAllocator.BitmapManager.AllocMemory` | Kernel/Memorymanager/bitmapMemoryManager.c:117-146 | Next-fit is complete: for at least one block, NULL exactly when no run of the needed length exists anywhere; otherwise the lowest run at or after `current`, or the lowest overall if there is none, becomes live. |
| `BitmapAllocator.BitmapManager.ClearToEnd` | Kernel/Memorymanager/bitmapMemoryManager.c:184-188 | The scan for END terminates inside the group and clears exactly the cells before it. |
| `BitmapAllocator.BitmapManager.FreeMemory` | Kernel/Memorymanager/bitmapMemoryManager.c:159-191 | Releases exactly the group that starts at the address; any other address changes nothing. |
| `BitmapAllocator.BitmapManager.GetMemoryInfo` | Kernel/Memorymanager/bitmapMemoryManager.c:148-157 | Used bytes are the blocks of the decoded groups; used and free add up to the total. |
| `BitmapAllocator.AllocThenFree` | Kernel/Memorymanager/bitmapMemoryManager.c:117-191 | Allocating and freeing the result restores bitmap, count and live groups. |
| `KernelHeap.Heap.AllocMemory` | Kernel/Memorymanager/BuddyMemoryManager.c:125-172 | The contract of both allocators: one new extent, large enough and disjoint from every other, or no change; it succeeds exactly when `Serves` says so. |
| `KernelHeap.Heap.FreeMemory` | Kernel/Memorymanager/bitmapMemoryManager.c:159-191 | The contract of both allocators: exactly that extent goes, and every request it could hold now succeeds. |
| `KernelHeap.BlockServes` | Kernel/Memorymanager/BuddyMemoryManager.c:134-163 | Buddy: room for one block is room for every request that block can hold. |
| `KernelHeap.RunServes` | Kernel/Memorymanager/bitmapMemoryManager.c:53-71 | Bitmap: a free run serves every request it can hold. |
| `LinkedQueue.Queue.Enqueue` | Kernel/dataStructures/queue.c:43-64 | Appends to the sequence exactly when a node can be allocated; otherwise nothing changes. |
| `LinkedQueue.Queue.Dequeue` | Kernel/dataStructures/queue.c:66-81 | Returns and removes the first element and frees its node; afterwards a node-sized request succeeds. |
| `LinkedQueue.Queue.Remove` | Kernel/dataStructures/queue.c:138-165 | Returns and removes the first match, keeps the order of the rest, frees its node. |
| `LinkedQueue.Queue.Contains` | Kernel/dataStructures/queue.c:123-136 | The first match, or none. |
| `LinkedQueue.Queue.CutOut` | Kernel/dataStructures/queue.c:148-158 | Unlinking at any position, front, middle or rear, leaves a proper chain of the remaining nodes. |
| `QueueMoves.Switch` | Kernel/processes/process.c:115-126 | A process moved between queues is never lost, under either allocator and in any heap state: the first match leaves one queue and arrives at the end of the other, and every extent that is not a node of the first queue, other queues' nodes included, stays allocated. |
| `QueueMoves.Rotate` | Kernel/processes/process.c:297-315 | The rotation never loses a process, in any heap state, and leaves every other extent allocated. |
| `QueueSystem.NobodyLost` | Kernel/processes/process.c:115-126 | Over any sequence of moves, rotations and removals among any number of queues, a process that is not taken out keeps exactly its entries. |
| `QueueSystem.Perform` | Kernel/processes/process.c:106-126 | Any such sequence carried out on linked queues over one heap, whatever its state, does exactly that: no step fails, no queue loses a node to another. |
| `QueueSystem.PushOne` | Kernel/dataStructures/queue.c:43-64 | Among any number of queues, enqueue fails only for lack of memory, and then changes none of them. |
| `QueueRefinement.StepIsMoves` | Kernel/processes/process.c:115-219 | Every kernel operation except creation changes the four process queues by exactly its moves, rotations and removals. |
| `QueueRefinement.WaitOpsApply` | Kernel/semaphores/semaphore.c:64-128 | post takes the first waiter and close every waiter out of the wait queue, and no other. |
| `QueueRefinement.RealiseRun` | Kernel/processes/process.c:82-219 | Whole runs on linked queues over one heap, the four process queues and the wait queues of all slots, creations and waits with the heap's own answers: at the end they hold exactly the sequences of the state machine; a run ends early only at a creation by idle. |
| `SemaphoreLaws.StepBooks` | Kernel/semaphores/semaphore.c:96-128 | Every kernel operation keeps units balanced, hand-overs in order of arrival, and queued pids matched one to one with the blocked-by-semaphore queue. |
| `SemaphoreLaws.LedgerTheorem` | Kernel/semaphores/semaphore.c:96-128 | In every run whatsoever: a positive value means no waiters; initial value + posts = value + granted waits + 2^32 for every wrap-around, hence without that term below 2^32 posts; those served are a prefix of those that arrived and the rest is the queue. |
| `SemaphoreLaws.SemaphoreTheorem` | Kernel/semaphores/semaphore.c:96-128 | In every safe run, queued pids and those blocked by semaphore match one to one, without repetition. |
| `SemaphoreLaws.WaitTakesOne` | Kernel/semaphores/semaphore.c:96-102 | A wait that finds a unit takes exactly that one, on open slots and others, and blocks nobody. |
| `SemaphoreLaws.PostAddsOne` | Kernel/semaphores/semaphore.c:115-127 | A post adds exactly one unit to its slot, in 32 bits, unless it hands it to a waiter. |
| `SemaphoreLaws.InitSetsUnits` | Kernel/semaphores/semaphore.c:37-54 | Opening a slot not in use sets its value, whatever was posted there before; a slot in use is left alone. |
| `SemaphoreLaws.CloseClears` | Kernel/semaphores/semaphore.c:64-74 | Closing leaves a slot that is not open and has no units, and no other slot changed. |
| `Stranding.RunWaitQueues` | Kernel/semaphores/semaphore.c:96-128 | In every run, a queued pid is blocked by semaphore, or idle, or was killed since, and nobody blocked by semaphore is queued twice. |
| `Stranding.WaitQueuesIff` | Kernel/semaphores/semaphore.c:103-112 | A wait that has to block leaves its caller in the wait queue if and only if the slot has a queue and the node was allocated. |
| `Stranding.StepStrands` | Kernel/semaphores/semaphore.c:64-112 | An operation newly strands a process, blocked by semaphore and in no wait queue, if and only if the process waits without being queued or the semaphore it waits on is closed. |
| `Stranding.StrandedForever` | Kernel/semaphores/semaphore.c:103-112 | A stranded process stays blocked in every run, whatever is posted, until it is killed; the shell, which cannot be killed, for good. |
| `KernelRuns.ShellStranded` | Kernel/semaphores/semaphore.c:96-112 | A run from boot, all allocations succeeding, in which the shell waits on a slot that was never opened and stays blocked in every continuation. |
| `KernelRuns.StrandedRun` | Kernel/semaphores/semaphore.c:103-112 | A run from boot that strands a process for lack of memory for its queue node. |
| `SemaphoreLaws.KilledWaiterAbsorbsPost` | Kernel/semaphores/semaphore.c:117-123 | After the first waiter is killed the next post wakes nobody and raises no value, though others may wait; `PostReaches` is the exact condition, that the waiter is still blocked by semaphore. |
| `SemaphoreLaws.OnlyPostReleases` | Kernel/processes/process.c:128-219 | A semaphore waiter is released only by a post that finds it first in line, or by its own kill: manual block and unblock, and wake-ups of parents, never move it. |
| `KernelRuns.LostPost` | Kernel/semaphores/semaphore.c:117-123 | A run from boot in which a waiter is killed and the next post is lost. |
| `ProcessSafety.StepKeeps` | Kernel/processes/scheduler.c:155-352 | Every operation keeps the process invariant. |
| `ProcessSafety.RunKeeps` | Kernel/processes/scheduler.c:155-352 | Every run keeps the process invariant. |
| `ProcessSafety.UnblockKeeps` | Kernel/processes/process.c:185-201 | Unblocking keeps every process in exactly one queue with the matching status. |
| `ProcessSafety.BlockKeeps` | Kernel/processes/scheduler.c:180-189 | Blocking, with the switch when the running process blocks itself, keeps the invariant. |
| `ProcessSafety.DispatchKeeps` | Kernel/processes/scheduler.c:165-177 | A context switch keeps the invariant, whatever the running process just did to itself. |
| `ProcessSafety.KilledKeeps` | Kernel/processes/scheduler.c:218-251 | Erasing the victim and waking its parent keeps the invariant: nobody is left waiting for a dead child. |
| `ProcessSafety.WaitpidKeeps` | Kernel/processes/scheduler.c:292-334 | waitpid suspends a caller only on a live child of its own, and keeps the invariant. |
| `ProcessSafety.CreateKeeps` | Kernel/processes/scheduler.c:61-141 | Creation keeps the invariant for every outcome of its allocations, except that a process created by idle gets its queue node. |
| `LostProcesses.CreatedIsQueued` | Kernel/processes/scheduler.c:90-141 | A created process is queued if and only if its queue node was allocated and it is a background process or not of priority 6. |
| `LostProcesses.CreatedPcb` | Kernel/processes/scheduler.c:73-104 | The PCB of a created process: the priority asked for, 5 if above 6, a child of the caller that waits for nobody, BLOCKED exactly in the background; all other PCBs stay; a pid is used up even when the stack allocation fails. |
| `LostProcesses.CurrentIsReadyIff` | Kernel/processes/process.c:88-91 | A process created by idle becomes current at once, and is ready, as the current process has to be, if and only if its queue node was allocated. |
| `LostProcesses.OrphanForever` | Kernel/processes/process.c:233-268 | A process that is in no queue stays so in every run: it never runs, is never found or listed, and kill never frees its PCB and stack. |
| `LostProcesses.CreatedAndLost` | Kernel/processes/scheduler.c:138-140 | Creation with priority 6, or without memory for the queue node, yields such a process, whatever happens afterwards. |
| `KernelRuns.PrioritySixIsLost` | Kernel/processes/scheduler.c:138-140 | A run from boot in which all allocations succeed and the process created with priority 6 is in no queue. |
| `ProcessSafety.ChangePrioKeeps` | Kernel/processes/scheduler.c:336-352 | A priority change keeps the invariant. |
| `ProcessSafety.SemWaitKeeps` | Kernel/semaphores/semaphore.c:96-113 | wait keeps the process invariant. |
| `ProcessSafety.SemPostKeeps` | Kernel/semaphores/semaphore.c:115-128 | post keeps the process invariant. |
| `ProcessLaws.EverybodyPlaced` | Kernel/processes/process.c:82-219 | In every reachable state: each queued process is in exactly one queue, once, with the status of that queue; idle is in none; no zombie; current and foreground are allocated; stacks go with PCBs. |
| `ProcessLaws.SuspendedOnLiveChild` | Kernel/processes/scheduler.c:292-334 | In every reachable state a process suspended in waitpid is blocked, and its target is a live child of it. |
| `ProcessLaws.KillWakesParent` | Kernel/processes/scheduler.c:218-291 | No lost wake-up: killing the target makes the suspended parent ready. |
| `ProcessLaws.KillWakesExactly` | Kernel/processes/scheduler.c:287-289 | A kill makes a blocked process ready if and only if its last waitpid named the victim. |
| `KernelRuns.StaleWakeUp` | Kernel/processes/scheduler.c:287-289 | A run from boot after which a process that is in no waitpid is woken by the kill of the child it once waited for. |
| `LostProcesses.StepIdleChild` | Kernel/processes/scheduler.c:78-86 | An operation adds a killable child of idle if and only if idle creates a process other than the first. |
| `LostProcesses.NoIdleChildren` | Kernel/processes/scheduler.c:247-250 | In runs in which idle creates only the first process, no process that kill accepts is a child of idle. |
| `KernelRuns.IdleChildExists` | Kernel/processes/scheduler.c:78-96 | A run from boot, with one failed creation, that reaches a killable child of idle. |
| `ProcessLaws.WaitpidReturnsMinusOne` | Kernel/processes/scheduler.c:316-333 | In every reachable state waitpid, called or resumed, finds no zombie and returns -1. |
| `ProcessLaws.WaitpidSuspendsIff` | Kernel/processes/scheduler.c:292-322 | A ready caller is suspended if and only if it names a queued child of its own; otherwise nothing changes. |
| `ProcessLaws.WaitpidOfIdle` | Kernel/processes/scheduler.c:292-333 | Idle is never suspended: naming a child of its own only clears its record and sets it ready, anything else changes nothing. |
| `ProcessLaws.PriorityWritten` | Kernel/processes/scheduler.c:336-352 | changePrio on a queued process above pid 1 writes the priority asked for, or the end of 0..5 it lies beyond, and nothing else; on any other pid it does nothing. |
| `FieldLaws.StepFields` | Kernel/processes/scheduler.c:61-352 | Every operation: parent, foreground flag and return value of a PCB never change, its waitpid record only by its own waitpid, its priority only by changePrio on it; the foreground process changes only by a switch to a foreground process or by its kill, the current one only by a switch, by its kill, or by a creation while idle is current. |
| `ProcessLaws.KilledIsGone` | Kernel/processes/scheduler.c:218-272 | A kill frees exactly the victim's PCB and stack, leaves no queue entry or pointer to it, and everybody else stays queued. |
| `FairScheduling.StepAdvances` | Kernel/processes/scheduler.c:155-178 | No operation moves a ready process back in the queue; a switch to someone else moves it forward. |
| `FairScheduling.WaitingCosts` | Kernel/processes/scheduler.c:155-178 | While a ready process is passed over, switches are bounded by its position and ticks by 19 times that plus the running quantum. |
| `FairScheduling.BoundedWaiting` | Kernel/processes/scheduler.c:155-178 | A process at index i that stays ready is dispatched by the (i+1)-th switch, hence within 19*(i+1) ticks. |
| `TimeSlices.QuantumIsTicks` | Kernel/processes/scheduler.c:155-178 | Whatever processes do, a run without a context switch has spent exactly its ticks of the quantum, so more ticks than that mean a switch. |
| `TimeSlices.SliceIsQuantum` | Kernel/processes/scheduler.c:21-27 | After a switch the slice is what the priority gives (`SliceTable`), in every run: only ticks spend it and no run exceeds it without a switch. |
| `TimeSlices.SliceTable` | Kernel/processes/scheduler.c:21-27 | The slices in ticks are 18, 15, 12, 9, 6 and 3 for priorities 0 to 5, and 3 for idle. |
| `TimeSlices.SliceOfTicks` | Kernel/processes/scheduler.c:155-177 | Ticks alone leave the process running for exactly its quantum, and the next one switches. |
| `ProcessManager.Scheduler.constructor` | Kernel/processes/scheduler.c:41-49 | The booted state, invariant established. |
| `ProcessManager.Scheduler.GetNextProcess` | Kernel/processes/process.c:297-322 | Rotates the ready queue and points current, and for a foreground process also foreground, to its old front; idle when it is empty. |
| `ProcessManager.Scheduler.Schedule` | Kernel/processes/scheduler.c:155-178 | Computes the tick of the state machine. |
| `ProcessManager.Scheduler.YieldProcessor` | Kernel/processes/scheduler.c:202-206 | Computes a forced context switch. |
| `ProcessManager.Scheduler.BlockProcessQueue` | Kernel/processes/process.c:128-165 | Fails, changing nothing, for semaphore waiters and processes that are not ready; otherwise moves the process to the end of the blocked queue. |
| `ProcessManager.Scheduler.BlockProcess` | Kernel/processes/scheduler.c:180-189 | Computes the block step, keeps the invariant, and reports success exactly for ready processes. |
| `ProcessManager.Scheduler.UnblockProcess` | Kernel/processes/process.c:185-201 | Computes the unblock step; succeeds exactly for manually blocked processes. |
| `ProcessManager.Scheduler.KillProcess` | Kernel/processes/process.c:435-462 | Moves the victim to the zombie queue from whichever queue holds it and lets go of both pointers; an unknown pid changes nothing. |
| `ProcessManager.WokenFacts` | Kernel/processes/scheduler.c:247-250 | Through the zombie queue or by the early reaping for idle, the victim's PCB is freed exactly once and the state reached is the one-step kill. |
| `ProcessManager.WakesExactly` | Kernel/processes/scheduler.c:274-291 | Waking the parent makes a blocked process ready if and only if its last waitpid named the victim, and has already freed the victim's PCB if and only if the parent is idle. |
| `ProcessManager.Scheduler.Kill` | Kernel/processes/scheduler.c:218-257 | Computes the one-step kill; succeeds exactly for a queued pid above 1; the second read of the victim's parent hits a freed PCB if and only if that parent is idle. |
| `ProcessListing.FoundIffListed` | Kernel/processes/process.c:233-268 | In every valid state getProcess finds exactly idle and the queued processes, all allocated and below nextPid. |
| `ProcessManager.Scheduler.Waitpid` | Kernel/processes/scheduler.c:292-334 | Computes the waitpid step; suspends exactly a ready caller that names a queued child of its own, whatever the child is doing, and records it as waiting for that child; the branch that reaps at once is never reached. |
| `ProcessManager.Scheduler.CreateProcess` | Kernel/processes/scheduler.c:61-141 | Computes the creation step for every outcome of its allocations, except that a process created by idle gets its queue node; the pid returned is fresh, a child of the caller, waits for nobody and has the priority asked for, 5 if out of range; it is queued if and only if its node was allocated and it is a background process or not of priority 6; all other PCBs stay; a failure leaks neither PCB nor stack. |
| `ProcessManager.Scheduler.ChangePriority` | Kernel/processes/scheduler.c:336-352 | Writes and returns the priority asked for, or the end of 0..5 it lies beyond, and changes no other field or PCB; fails, changing nothing, exactly for pids up to 1 and pids not found. |
| `ProcessManager.Scheduler.InitSemaphore` | Kernel/semaphores/semaphore.c:37-54 | Opens an unused slot with the value; fails, changing nothing, on a used slot or an id out of range. |
| `ProcessManager.Scheduler.CloseSemaphore` | Kernel/semaphores/semaphore.c:64-74 | Closes the slot; fails, changing nothing, on an unused one or an id out of range. |
| `ProcessManager.Scheduler.WaitSemaphore` | Kernel/semaphores/semaphore.c:96-113 | Computes the wait step for every id, slots that are not open included, for ready callers and idle, and for every outcome of its two allocations: take a unit, fail, or queue if possible and switch. |
| `ProcessManager.Scheduler.PostSemaphore` | Kernel/semaphores/semaphore.c:115-128 | Computes the post step for every id: hand over to the first waiter, or raise the value, also of a slot that is not open, with 32-bit wrap-around. |
| `ProcessManager.Scheduler.GetProcessInfo` | Kernel/processes/scheduler.c:354-383 | The pid scan ends before nextPid, fills exactly the array it allocated, and lists idle and each queued process once, in increasing pid order, with its PCB. |
| `ProcessListing.CountIsExact` | Kernel/processes/process.c:368-382 | processCount is exactly the number of processes getProcess can find. |
| `ProcessListing.ScanGoesOn` | Kernel/processes/scheduler.c:369-377 | While fewer than processCount PCBs are found, the scan is still below nextPid. |
| `ProcessListing.ListsEveryone` | Kernel/processes/scheduler.c:369-382 | A scan that has copied processCount rows has copied idle and every queued process, each once. |
| `RingBuffer.PipeBuffer.Take` | Kernel/pipes/pipe.c:104-109 | The read section on the array: oldest byte out; nothing when empty. |
| `RingBuffer.PipeBuffer.Put` | Kernel/pipes/pipe.c:131-136 | The write section on the array: byte appended; nothing when full. |
| `RingBuffer.PipeBuffer.Clear` | Kernel/pipes/pipe.c:181-183 | Empties the buffer. |
| `PipeSafety.StepKeeps` | Kernel/pipes/pipe.c:89-188 | Every step of any process in pipeRead, pipeWrite or pipeClear keeps the pipe invariant. |
| `PipeSafety.RoomToWrite` | Kernel/pipes/pipe.c:131-131 | Inside the write section the buffer is never full. |
| `PipeSafety.ByteToRead` | Kernel/pipes/pipe.c:104-104 | Unless the pipe was cleared, inside the read section the buffer is never empty. |
| `PipeSafety.Conservation` | Kernel/pipes/pipe.c:101-141 | Every run: semReaders + semWriters + operations in flight = 100; the stored bytes never exceed those announced or owed; one process at a time holds the mutex. |
| `PipeSafety.WritesComplete` | Kernel/pipes/pipe.c:119-144 | Every run, clears included: a returned pipeWrite stored all its bytes. |
| `PipeSafety.FirstInFirstOut` | Kernel/pipes/pipe.c:89-144 | Without clears: bytes consumed by all readers are a prefix of bytes produced by all writers, in order, and the ring holds the rest. |
| `PipeSafety.ReadsComplete` | Kernel/pipes/pipe.c:89-117 | Without clears: a returned pipeRead delivered the full size. |
| `PipeSafety.HolderCanStep` | Kernel/pipes/pipe.c:101-114 | Whoever waits on the mutex waits for a holder that can take a step. |
| `PipeSafety.StuckOnlyOnEmptyOrFull` | Kernel/pipes/pipe.c:101-141 | If nobody can step, either only readers wait and the pipe is empty, or only writers wait and, unless it was cleared, it is full; never both. |
| `PipeSafety.SomeoneMoves` | Kernel/pipes/pipe.c:101-141 | With a reader waiting for data and a writer waiting for room, some process can take a step. |
| `PipeTransfers.TransfersExact` | Kernel/pipes/pipe.c:89-144 | Every run: the last bytes a returned pipeWrite's process stored are exactly its data, in order; those a returned pipeRead's process took are exactly the bytes in the cells it wrote, in order. |
| `PipeStaleness.StepStale` | Kernel/pipes/pipe.c:89-188 | The number of stale tokens, announced or owed but without a byte, grows by the bytes a clear discards, shrinks by one when a read round misses its byte, and changes in no other step. |
| `PipeStaleness.DiscardedIsMissed` | Kernel/pipes/pipe.c:89-188 | Every run: bytes discarded by clears = rounds that missed their byte + stale tokens left, so some round misses if and only if more was discarded than is still stale. |
| `PipeStaleness.FreshReadComplete` | Kernel/pipes/pipe.c:89-117 | A read that starts with no stale token, in a stretch in which no clear discards a byte, writes every cell and returns the full size. |
| `StaleReads.QuietExactly` | Kernel/pipes/pipe.c:101-114 | On a pipe with nobody inside an operation: no token is stale if and only if no later read can miss its byte as long as no clear discards any. |
| `PipeBuffers.BufferExact` | Kernel/pipes/pipe.c:101-116 | Every run: the first `result` cells of a returned pipeRead's buffer hold the bytes it took if and only if no round that missed its byte precedes one that got it; without clears every cell is written. |
| `PipeBuffers.HoleInBuffer` | Kernel/pipes/pipe.c:101-116 | The run write, clear, read of two bytes, write: the read returns 1 with its byte in the second cell and the first never written. |
| `PipeFailures.SlipBreaks` | Kernel/pipes/pipe.c:101-102 | A wait that fails and is ignored breaks the account exactly: one unit too many in flight, or two processes in the critical section. |
| `PipeFailures.SlippedWriteIsLost` | Kernel/pipes/pipe.c:128-141 | On a full pipe a write whose wait failed loses its byte and returns 0. |
| `PipeOnKernel.PipeStepLinked` | Kernel/pipes/pipe.c:101-141 | A step of a pipe operation by the running process and its system call keep the pipe's semaphores equal to the kernel's. |
| `PipeOnKernel.OpenedPipe` | Kernel/pipes/pipe.c:70-78 | Three semaphores initialised on unused slots of any kernel state start a pipe in step with the kernel. |
| `PipeOnKernel.QueuedIsBlocked` | Kernel/pipes/pipe.c:101-141 | In every run of kernel and pipe together, a process queued inside a pipe operation is in the kernel's blocked-by-semaphore queue, BLOCKED, and does not have the processor. |
| `MVarSafety.ActKeeps` | Userland/SampleCodeModule/shell/haskell.c:38-89 | Every step of any writer, reader or the set-up keeps the MVar invariant. |
| `MVarSafety.AlwaysOneToken` | Userland/SampleCodeModule/shell/haskell.c:122-126 | Every run, any number of writers and readers: tokens in the token pipe + values in the data pipe + agents holding either = 1. |
| `MVarSafety.PrintedIsWritten` | Userland/SampleCodeModule/shell/haskell.c:72-89 | Every run: values printed are a prefix of values written, in order, each once, with at most one still on its way. |
| `MVarSafety.DeadlockFree` | Userland/SampleCodeModule/shell/haskell.c:38-89 | With at least one writer and one reader, some agent can always take a step. |
| `MVarValues.PrintedByWriters` | Userland/SampleCodeModule/shell/haskell.c:33-50 | Every value printed is the letter of one of the writers. |

## Left out

- Saved stack pointers, stack frames and register save and restore: machine context.
- The copies of pids that wait allocates on the heap, beyond whether that succeeds.
- `children_sem` and `children_count` in createProcess and kill: bookkeeping over semaphore ids that may collide with those of pipes.
- createPipe, pipeClose and the validation of pipe ids: the pipe model starts from open pipes.
- The keyboard path that writes to a pipe from interrupt context: it can wait while idle is current.
- The argument checks at the head of createProcess and the failure of createQueue inside semInit.
- freeQueue, clearQueue, peekQueue and dumpQueue: easier members of the same family; getNextReadyProcess repeats getNextProcess.
- The text fields of a PCB, its standard streams, stack base and entry point: copied, never decided upon.
- Drivers, video, sound, clock, exception screens, shell, argument parsing, system-call wrappers, bootloader, file-system utility.
- Randomised waiting in the MVar program: every schedule is allowed instead.
- ProcessManager.Scheduler.Kill: does not model the `children_sem` bookkeeping.
- ProcessManager.Scheduler.InitSemaphore: does not model a failed createQueue, after which the code frees the semaphore table and goes on using it.
- ProcessManager.Scheduler.CloseSemaphore: does not model the freed queue the slot keeps pointing to; the release of the nodes is in QueueRefinement.WaitOpsApply.
- ProcessManager.Scheduler.CreateProcess: does not model null arguments, which the code refuses, nor a process created by idle without a queue node, which becomes current without being queued (`CurrentIsReadyIff`).
- ProcessSafety.CreateKeeps: does not hold for a process created by idle without a queue node, which becomes current without being queued.
- BuddyAllocator.BuddyManager.constructor: sizes above `2^29` are excluded because the code then writes past its array of 30 lists; sizes up to 32 because the heap then has no block of order 6 and serves nothing. The kernel passes `HEAP_SIZE`.
- BitmapAllocator.BitmapManager.AllocMemory: requests that truncate to 0 blocks are excluded exactly when `Search` answers them with an address past the payload area, because the code then writes outside the bitmap; the others return NULL.
- BitmapAllocator.BitmapManager.FreeMemory: addresses past the payload area are excluded because the code then reads outside the bitmap.
- KernelHeap.Heap.AllocMemory: requests to the bitmap allocator are from 1 to `2^32 - 1` bytes, the ones it can serve in full.
- KernelHeap.Heap.FreeMemory: addresses nobody owns are excluded, because the buddy allocator takes whatever precedes them for a header; NULL is allowed.
- RingBuffer.PipeBuffer.Clear: pipeClear leaves the two counting semaphores as they are; that is modelled in PipeProtocol.
