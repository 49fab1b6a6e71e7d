# gemOS memory, process and scheduler model

gemOS is a small x86-64 teaching kernel. This project models four parts of it that
lean on one another and proves what they promise together: the bitmap frame allocator,
the code that builds, walks, edits, copies and tears down four-level page tables, the
segment and process calls on top of it, and the round-robin scheduler with its tick
accounting. Two smaller parts are modelled as well: the linked queue whose nodes keep
`next` and `prev` in one field, and the number printer against the parser of the shell's
`init` command.

Verify everything with `dafny verify dfyconfig.toml`.

## How the model is built

Physical memory is a sequence of frames of 512 entries. Code that changes it in place is
written as methods on `Machine`, `PageList`, `System`, `Processor`, `List` and `NodePool`,
with the branches, loops and constants of the C code. Each such method is proved equal to
a specification on values, or to a predicate over the state before and after, and what the
kernel promises is proved about those.

A page-table tree in memory is described by a ghost value `Space`: its root, the entry at
each place of the tree (`Node`: a table of one of the four levels, a page, or a 2MB entry),
and which table each frame is. `Wf` says that memory holds exactly this tree;
`Walk.TreeDetermined` shows that memory determines it, so the ghost value adds nothing of
its own. `Leaves` is the map from virtual pages to frames and flags that the tree stands
for, and `Walk.UserTranslationIsTheMap` shows that the processor's walk (Intel SDM volume
3A, section 4.5) computes exactly that map for user reads, `Walk.UserWriteTranslation` when
it grants a user write, and `Walk.KernelRange` what the kernel itself can address while a
process's tree is loaded.

The two invariants, one of memory (`Kernel.KernelOk`) and one of the process table
(`SchedulerRuns.SchedOk`), are joined in WholeKernel. The steps of a run are ticks, calls,
faults, signals and user stores, in any order. `Undisturbed.RunWorldOk` says when both
invariants hold at every point of a run, and `Undisturbed.RunUndisturbed` when a process that
has not run in between finds every page as it left it: always, but for the word that the
kernel pushes when it delivers a signal, for which the exact condition is given. KernelRun
proves that each method of the code is such a step.

The files, bottom up:

| files | contents |
|---|---|
| Integers, Bitmap, PageList, NodeMemory | integer sizes, bit macros, the three-region frame allocator, its ledger over runs, contiguous allocation |
| PageTable, Physical, Install, InstallMulti, KernelMap, Walk | trees in memory, the mapping and unmapping code, the kernel's own mappings, the processor's walk |
| KernelAccess, Deposit, Segments, Fork, CopyLoops, CopyWhole, Shrink, Teardown, Lifecycle, LastExit | kernel accesses and stores under a process's tree, segments, `copy_mm`, the unmapping loop of `do_shrink`, `pt_cleanup`, what a whole life takes and gives back, the exit of the last process |
| Isolation, Kernel, KernelSteps, ChildView, Syscalls, FirstProcess, Separation | address-space isolation over runs, the kernel's memory invariant, what a forked child sees, the system calls, the first process, the invariant in hardware terms |
| Context, Scheduler, SchedulerRuns, CallEffects, Fairness, Coexist | the process table, the scheduler, its invariants over runs, each call field by field, time bounds, and what scheduling leaves alone |
| WholeKernel, Undisturbed, Returns, ReadFirst, SystemFrames, KernelRun, Boot | both sides together, what holds over every run, what a signal handler finds on its stack, ranges first touched by a read, frames that belong to no process, the code as steps of a run, and the way from power-on to the first process |
| Queue, PrintParse | the queue and its node pool, printing and parsing numbers |

None of the invariants is empty: `Boot.BootInit` starts from arbitrary memory contents, runs
the set-up code, and arrives in a state that satisfies them, and `Boot.Start` hands that
state to the class whose methods keep them (`KernelRun.Computer`).

Integer width is written out where it matters: the bitmap words are `bv32`, the free count
and the tick arguments wrap at 2^32, the parser's value and the stack pointer at 2^64, and
`PageTable.RawFields` shows that every entry built fits 64 bits.

## Where the code does less than one might expect

* `get_free_page` scans only `size >> 8` bitmap words and, when it has wrapped onto a full
  word 0, hands out bit 32 whatever its state. `PageList.TakeCharacterised` says exactly
  when the frame was free, and `PageList.WindowExhausted` an input: from boot, after one
  allocation per frame of the window the next one hands out frame 32 again, which is held,
  with seven eighths of the region still counted free. `PageList.SupplyLasts` says how
  many allocations in a row are served with free frames.
* A system call runs under the caller's page tables, whose identity entries cover the first
  128MB only. So the two `memcpy` of `copy_mm` fault inside the kernel if and only if a DATA
  or stack frame to be copied, or a frame taken for one, is number 0x8000 or above
  (`CopyWhole.CopyMm`, `Syscalls.System.DoFork`, with `CopyLoops.ForkFits` as the condition).
  `CopyLoops.FarFork` gives the input: a process with a page to copy, once 7164 user frames
  have been handed out since boot. `Separation.KernelReach` states the whole range the
  kernel can address.
* `invoke_sync_signal` stores the return address below the user's stack pointer with the
  kernel's rights, in a tick that delivers an alarm or on a fault that was not handled, and
  the process chooses the pointer. `WholeKernel.ActKeeps` and `Undisturbed.OthersUndisturbed`
  give the exact conditions under which the invariants and the pages of the others survive
  that store, `Undisturbed.OwnPushSpares` shows that they do whenever the process could have
  written there itself, and `Undisturbed.PushIntoTable` and `Undisturbed.PushIntoShared` give
  addresses for which they do not: a table of the process, and a page shared since a fork.
* A fork copies only the topmost page of the stack: the pages that the stack has grown by
  are not in the child (`ChildView.ForkSeen`).
* A fault is served with whatever frame the scan hands out; `Kernel.FaultKeepsIff` shows that
  the invariant survives exactly when that frame was free, and `Kernel.HeldFrameShared` that
  otherwise two pages of live processes may come to lie on it.
* A page fault makes tables with the rights of the access that faulted. So once a process has
  read a page of a 2MB range in which nothing was mapped, it can never write a page of that
  range, whatever the segment grants (`ReadFirst.NeverWritten`).
* The huge-page test `(*entry & 0x80) == 1` in `get_user_pte` can never be true
  (`PageTable.HugeTestNeverFires`).
* `install_os_pts` on a tree that has no first-level entry yet, and only on such a tree,
  leaves a first-level entry without the user bit (`KernelMap.InstallOsPts`). No user access
  to any page under it then gets through (`Walk.SupervisorRootBars`), and no later mapping
  or unmapping repairs it (`KernelMap.SupervisorForever`).
* A RODATA shrink after a fork frees frames that the other process still maps.
  `Isolation.ShrinkKeepsIff` gives the exact condition under which a shrink keeps the
  invariant, `Isolation.RodataShrinkAfterFork` shows a fork and a shrink that break it, and `Syscalls.System.DoShrink` carries the condition to the code.
* Teardown frees `os_pmd_pfn`, one global that every `install_os_pts` overwrites;
  `Teardown.ReleaseTree` shows that the tree's frames all come back if and only if the
  global still names this tree's own table, and `Syscalls.PmdsDiffer` that after a fork it
  does not name the parent's.
* `parse_init` steps over the terminator after trailing blanks and goes on parsing whatever
  follows in the buffer (`PrintParse.TrailingBlanks`), so numbers are read back if and only if
  no blank follows them (`PrintParse.ReadBackIff`).
* The last exit releases the OS stack frame twice, which leaves the free count one too
  high (`Lifecycle.StackReleasedTwice`, and `LastExit.WholeLife` for the whole exit).
* A tick that picks the interrupted context again leaves it READY, not RUNNING
  (`SchedulerRuns.RunningAfterTick`), and `sleep(0)` never wakes (`Fairness.SleepZero`).

## Model

| member | source | states |
|---|---|---|
| Bitmap.SetBitAt | src/memory.c:7-12 | setting a bit makes that bit read as set and every other bit of the word read as before |
| Bitmap.ClearBitAt | src/memory.c:14-19 | the exclusive-or form of the macro clears exactly that bit, whether or not it was set |
| Bitmap.FullWord | src/memory.c:64 | a word equals 0xffffffff exactly when all 32 bits read as set |
| Bitmap.WordExtensionality | src/memory.c:73-76 | two words with the same 32 bits are the same word, so the bit view loses nothing |
| Bitmap.BitmapExtensionality | src/memory.c:14-19 | two bitmaps of equal length with the same bits are the same words |
| PageList.PageList.constructor | src/memory.c:26-49 | over a zero bitmap, init_pagelist reserves the first pages, and afterwards the ledger holds and nothing is handed out |
| PageList.ReserveCoversBitmap | src/memory.c:34-39 | the reserved pages cover the bitmap exactly when the size is a multiple of 8 or the byte count is not a multiple of the page size, and no smaller number would do |
| PageList.PageList.BitmapSet | src/memory.c:7-12 | as a sequence of bits, exactly the named bit changes |
| PageList.PageList.BitmapClear | src/memory.c:14-19 | as a sequence of bits, exactly the named bit is cleared |
| PageList.WindowIs | src/memory.c:61 | the number of words the scan looks at, an eighth of the bitmap's |
| PageList.PageList.SeekWord | src/memory.c:64-71 | the scan stops at the first word from last_free_pos on with a clear bit inside the window, else goes back to word 0 |
| PageList.FirstZero | src/memory.c:73-76 | the inner scan returns the lowest clear bit of the word, or 32 |
| PageList.PageList.GetFreePage | src/memory.c:58-85 | the method computes the specified state and frame |
| PageList.PageList.PfnAlloc | src/memory.c:87-101 | frame 0 and no change when the count is 0, else the next frame |
| PageList.PageList.PfnFree | src/memory.c:109-127 | addresses outside the region, and its first frame, are refused without change, else the bit is cleared and the count raised |
| PageList.TakeCharacterised | src/memory.c:58-85 | the frame taken was free if and only if the window has a clear bit, or word 0 has one, or bit 32 is clear; it is the lowest free frame of the window, else the lowest of word 0, else number 32 |
| PageList.TakeEffect | src/memory.c:78-81 | a successful allocation removes exactly one frame from the free set and keeps the ledger |
| PageList.TakeKeepsLedger | src/memory.c:58-85 | while some frame is counted free, the count stays right over an allocation if and only if the frame handed out was free |
| PageList.SupplyLasts | src/memory.c:58-85 | the next n allocations hand out free frames, every one, if and only if n is at most the size of the supply: the window's clear frames while word 0 or bit 32 is there to come round to, else those still ahead |
| PageList.GiveEffect | src/memory.c:109-122 | a release returns exactly that frame; the count stays equal to the number of free frames if and only if the frame was held |
| PageList.TakeGiveRoundTrip | src/memory.c:58-122 | allocating and releasing the same frame restores every bit and the count |
| PageList.FreeDeterminesBits | src/memory.c:58-85 | the set of free frames determines the bitmap |
| PageList.RunKeepsWard | src/memory.c:87-127 | over every run of allocations and releases of held frames the count equals the number of clear bits, held frames never coincide, and reserved frames are never handed out |
| PageList.ConsecutiveTakes | src/memory.c:58-85 | when the n bits from the next one on are clear and in the window, the k-th of n allocations takes the frame k places after the first |
| PageList.WindowExhausted | src/memory.c:58-85 | from boot, after one allocation per unreserved frame of the window the next one hands out frame 32 of the region, which is held, while seven times the window is still counted free |
| NodeMemory.InitNodeMemory | src/memory.c:207-225 | with a hundred clear frames ahead the pool is one block, the sequence check never complains, and all pages but the first are counted |
| PageTable.HugeTestNeverFires | src/entry.c:43 | the masked comparison with 1 is never true |
| PageTable.RawFields | src/context.c:144-187 | an entry built from a frame and flags fits 64 bits and gives back the frame, the flags, and the present and user bits |
| PageTable.RawWrite | src/context.c:183-185 | storing 0x5 and then or-ing in 0x2 stores the entry with flags 0x7 |
| PageTable.WfFraming | src/context.c:144-187 | a tree is unaffected by any memory change outside its own table frames |
| PageTable.AddTable | src/context.c:150-176 | hanging a zeroed frame under an empty slot gives a well-formed tree with one more table |
| Physical.Machine.constructor | src/memory.c:51-56 | the page-table and user regions start in order and disjoint |
| Physical.Machine.Bzero | src/lib.c:12-15 | exactly the named frame becomes zero |
| KernelAccess.CopyUnder | src/lib.c:40-49 | a page copy under a process's tree faults before it has written anything if and only if one of the two frames is beyond the first 128MB; otherwise exactly the target frame changes, to the contents of the source frame |
| KernelAccess.TablesInReach | src/context.c:68-104 | every page-table frame is where its address says under every process's tree, so tree code never faults |
| Deposit.CanonicalBits | src/entry.c:321-322 | an address of the store is accepted only when its bits 47 to 63 are alike (Intel SDM volume 1, section 3.3.7.1) |
| Deposit.KernelStore | src/entry.c:321-322 | an eight-byte store at any address with the kernel's rights: refused if and only if one of its words does not translate, else exactly its one or two words change |
| Deposit.SplitValue | src/entry.c:322 | the two words of an unaligned store together hold the value, and the bytes around it are the old ones |
| Deposit.ReadBack | src/entry.c:321-322 | the eight bytes at the address of a store, read through the same translation, are the value stored, wherever they are memory |
| Deposit.SparedFrames | src/entry.c:322 | frames keep their contents over the store if and only if each word that goes there finds its value already |
| Deposit.OwnStore | src/entry.c:322 | a store that the process could make itself is the same when the kernel makes it |
| Physical.Machine.AllocTable | src/memory.c:87-102 | frame 0 and no change when none is counted free, else the scan's frame, zeroed; the lists stay in order if and only if that frame was free |
| Physical.GrowTable | src/context.c:150-158 | taking and hanging a table keeps every mapping, and the only frame that leaves the free set is the one the tree gains |
| Physical.GrownTransitive | src/context.c:144-187 | growth steps compose, so a walk that allocates up to three tables accounts for exactly those |
| Install.EnterForSetup | src/context.c:150-158 | one level of the set-up walk: the table there, or a new zeroed one hung under the slot, with no mapping changed |
| Install.EnterForFault | src/entry.c:81-92 | the same for the fault handler's present test and flags |
| Install.InstallPtable | src/context.c:144-187 | the page map changes at exactly the given page, to the given frame or to the newly taken one, with write permission as the segment says; 2MB entries and all other pages stay; tables added on the way carry flags 0x7, those there keep their entries |
| Install.InstallPageTable | src/entry.c:75-121 | the page map changes at exactly the faulting page, to the frame just taken; tables added on the way carry the fault's flags |
| Install.FaultFlags | src/entry.c:79 | the flags of a page and of tables made by a fault: present, user, and write if and only if bit 1 of the error code is set |
| Install.GetUserPte | src/entry.c:14-57 | the walk is lookup in the page map: an entry is returned if and only if the page is mapped, and it is the one that holds the mapping |
| Install.DoUnmapUser | src/entry.c:60-73 | an unmapped page gives -1 and no change; a mapped one disappears alone and its frame is freed |
| InstallMulti.InstallPtableMulti | src/context.c:193-244 | the count pages from start on are mapped to frames taken one after the other, and the allocator moves by exactly that many |
| InstallMulti.ConsecutiveLeaves | src/context.c:229-242 | with enough clear frames ahead these frames are consecutive |
| InstallMulti.ContiguousMapping | src/context.c:189-244 | page k lands on start_pfn + k and no other page changes |
| KernelMap.InstallOsPts | src/context.c:68-104 | afterwards the 64 identity entries and the APIC entry are there, no page of the process has changed, os_pmd_pfn is this tree's PMD if it was made here, and a user tree's first-level entry ends up supervisor-only if and only if it was made here |
| KernelMap.SupervisorForever | src/context.c:68-187 | once the first-level entry is supervisor-only it stays so over every run of mappings, unmappings and kernel mappings |
| KernelMap.InstallApicMapping | src/apic.c:64-98 | exactly the APIC's 2MB entry is added; no page and no other 2MB entry changes |
| KernelMap.RemoveApicMapping | src/apic.c:100-126 | exactly that entry is removed, and the lists and all pages stay |
| KernelMap.ApicPteOk | src/apic.c:90-95 | the APIC entry's value under the two configuration options; it is never user-accessible |
| KernelMap.IdentityPteOk | src/context.c:95-102 | the value of the k-th identity entry under both configurations; it is never user-accessible |
| KernelMap.IdentityHugesAt | src/context.c:95-102 | which 2MB entries the loop has written after k rounds, and their values |
| Walk.UserTranslationIsTheMap | src/entry.c:14-57 | the processor's translation of a user read is the page map, for every page |
| Walk.UserWriteTranslation | src/entry.c:75-121 | a user write reaches the mapped frame if and only if the page is mapped and every entry on its path has the write bit |
| Walk.FaultTranslation | src/entry.c:75-121 | once a fault has been served a user read reaches the new frame; a user write does if and only if the fault was a write and every table that was there already on the way grants writing |
| Walk.SupervisorRootBars | src/context.c:71-82 | under a first-level entry without the user bit every user read and write of a page of PGD entry 0 faults |
| Walk.KernelTranslation | src/context.c:95-102 | a kernel access through a 2MB entry reaches the frame the entry names |
| Walk.IdentityTranslation | src/context.c:68-104 | the first 128MB translate to themselves for the kernel |
| Walk.KernelRange | src/context.c:68-104 | under a process's tree a kernel access to a frame of memory reaches it if it is below number 0x8000 and faults otherwise |
| Walk.ApicReach | src/apic.c:64-98 | a kernel access to the APIC's address reaches it under every process's tree, whichever options are set |
| Walk.TreeDetermined | src/entry.c:14-57 | memory and root determine the tree |
| Segments.PageOfAddress | src/include/memory.h:9-17 | the four indices of an address give back its page |
| Segments.AddressOfPage | src/include/memory.h:9-17 | every page has an address below 2^48 whose indices are its own |
| Segments.UserSide | src/include/context.h:39-42 | every segment address lies under PGD entry 0 and PUD entries 4 to 31, off the kernel side |
| Fork.ShareStep | src/context.c:489-503 | mapping a shared page keeps everything the copy has established and adds that page on the parent's frame |
| Fork.PrivateStep | src/context.c:507-526 | mapping a new frame and copying into it adds one private copy and disturbs no other |
| CopyLoops.ShareSegment | src/context.c:489-503 | the CODE and RODATA loops share exactly the mapped pages below the break |
| CopyLoops.CopyData | src/context.c:506-514 | the DATA loop faults if and only if one of its copies is out of the kernel's reach; otherwise it copies exactly the mapped pages below the break |
| CopyLoops.CopyStack | src/context.c:517-526 | the descending stack loop, after the DATA loop, faults if and only if one of the copies of the two is out of reach; otherwise it copies exactly the mapped pages from the break to the end |
| CopyLoops.FirstFarFrame | src/include/memory.h:22-28 | after 7164 allocations from boot the next user frame is number 0x8000 |
| CopyLoops.FarFork | src/context.c:506-526 | with so many user frames handed out a fork of any process with a DATA or stack page to copy does not fit |
| CopyWhole.CopyMm | src/context.c:477-530 | it faults if and only if a frame to be copied or a frame taken for a copy is beyond the first 128MB, and then all held frames are unchanged; otherwise the child maps exactly the pages to copy: CODE and RODATA on the parent's frames, DATA and stack each on a frame of its own that was free and has the same contents; the parent's tables and all held frames are unchanged; the child has the kernel's 2MB entries; table frames used are at most one more than the parent's tables |
| Shrink.UnmapRange | src/entry.c:184-188 | the loop removes exactly the mapped pages of the range and frees exactly their frames |
| Teardown.PtCleanup | src/context.c:337-369 | the recursion, which ends because the level falls, frees every table below a node and every mapped user frame once, clears their entries, and touches no other frame |
| Teardown.ReleaseTree | src/context.c:383-385 | every table and every mapped user frame is freed once and nothing else; the table frames freed are exactly the tree's if and only if os_pmd_pfn is this tree's own |
| Lifecycle.LifeBuilt | src/context.c:246-279 | at every point of every life of a tree, made of any set-up mappings, faults, unmaps and kernel mappings in any order, its frames are exactly what the two free sets have lost |
| Lifecycle.TearDown | src/context.c:383-385 | releasing such a tree makes both bitmaps and both free counts what they were before the root was allocated |
| Lifecycle.StackReleasedTwice | src/entry.c:209 | the second release of the last process's OS stack changes no bit but breaks the ledger |
| Isolation.FaultKeeps | src/entry.c:433-464 | a handled fault keeps the process and isolation invariant |
| Isolation.ExpandKeeps | src/entry.c:158-161 | an expand keeps it, with the new break still inside the segment |
| Isolation.ShrinkKeepsIff | src/entry.c:182-188 | a shrink keeps it if and only if none of the frames it frees is mapped by another process |
| Isolation.DataUnshared | src/entry.c:182-188 | for DATA that is always so |
| Isolation.RodataShrinkAfterFork | src/entry.c:182-188 | for RODATA a fork followed by a shrink of the whole segment frees a frame that the child still maps, and isolation is lost |
| Isolation.ForkKeeps | src/entry.c:243-258 | a fork keeps the invariant: only read-only frames become shared |
| Isolation.ExitKeeps | src/entry.c:195-229 | an exit that is not the last keeps it |
| Isolation.InvariantIsolates | src/context.c:489-526 | under the invariant a frame mapped writable anywhere is mapped nowhere else, and no mapped frame is marked free |
| Isolation.RunIsolated | src/entry.c:60-258 | at every point of every run of faults, expands, shrinks of unshared pages, forks and exits all live address spaces are isolated |
| Kernel.FaultKernel | src/entry.c:75-121 | mapping a faulting page is the abstract fault and keeps the invariant of the whole kernel, other processes' trees included |
| Kernel.FaultKeepsIff | src/entry.c:118-120 | mapping a faulting page keeps the kernel's invariant if and only if the frame the allocator picked was free |
| Kernel.HeldFrameShared | src/entry.c:118-120 | a writable page on a frame that a live process maps already ends the isolation |
| KernelSteps.ExpandKernel | src/entry.c:158-161 | moving a break is the abstract expand and keeps the kernel's invariant |
| KernelSteps.ShrinkKernel | src/entry.c:182-188 | the unmapping is the abstract shrink, and the kernel's invariant survives if and only if nothing freed was shared |
| KernelSteps.ForkKernel | src/entry.c:243-258 | the new process is the abstract fork's child and keeps the kernel's invariant |
| ChildView.CopiedPlaces | src/context.c:489-526 | by address, which pages fork shares read-only, which it copies writable, and which stack pages it leaves out |
| ChildView.ForkSeen | src/context.c:477-530 | what the child's addresses translate to: below DATA the parent's frames for reading only, from there on frames that were free, with the parent's contents, for reading and writing, and nothing at the stack pages below the topmost or where the parent has nothing |
| KernelSteps.ExitKernel | src/entry.c:209-210 | freeing the OS stack and the slot is the abstract exit and keeps the kernel's invariant |
| Syscalls.FaultPlace | src/entry.c:435-464 | every address the handler accepts is a page of an allowed segment range on the user side, and RODATA pages are never mapped writable |
| Syscalls.KernelFrames | src/entry.c:60-73 | a live process's mapped frames are allocated and all different |
| Syscalls.System.DoExpand | src/entry.c:139-165 | for segment 1 the DATA break and for 0 the RODATA break is returned and moved up by size pages, all else in the table staying, if size is at most 1024 and the end allows; otherwise 0 is returned and nothing changes |
| Syscalls.System.DoShrink | src/entry.c:167-193 | for segment 1 the DATA break and for 0 the RODATA break moves down by size pages and is returned, exactly the mapped pages between the two breaks go and exactly their frames become free, if size is at most 1024 and the start allows; otherwise 0 is returned and nothing changes; the kernel's invariant holds afterwards if and only if no freed frame is mapped by another process |
| Syscalls.System.DoPageFault | src/entry.c:420-473 | with the present bit clear, in DATA and in the stack a fault is served if and only if it is below the break, in RODATA if it is also a read, elsewhere never; then the scan's frame is what the processor reaches at the address, for writes if and only if the fault was a write and the tables on the way grant it; the kernel's invariant holds afterwards if and only if that frame was free; otherwise nothing changes |
| Syscalls.StackGrows | src/entry.c:456-461 | every first access to the 16MB of stack below the topmost page is served |
| Syscalls.System.DoFork | src/entry.c:243-258 | it faults in the kernel exactly when the copy does, leaving a slot with the caller's state and half a tree and nothing else changed; otherwise the first unused slot has the caller's handlers, timers, segments and registers, the caller's pid as parent, its own number, tree and OS stack, and is READY; all other slots and trees stay, and the child sees what ChildView.ForkSeen says |
| Syscalls.PmdsDiffer | src/context.c:71-104 | no two live trees have the same kernel PMD, so after a fork os_pmd_pfn is not the parent's |
| Syscalls.System.DoExit | src/entry.c:195-221 | the slot becomes unused, its OS stack is freed, and the scan finds whether any other process is left |
| Context.GetNewCtx | src/context.c:12-26 | the first unused slot becomes NEW with its number as pid; with none free nothing changes |
| FirstProcess.CreateContext | src/context.c:28-64 | the slot's number, state, OS stack and segment bounds and rights as create_context sets them, all other fields as they were |
| FirstProcess.BuildInit | src/context.c:253-271 | the init tree maps exactly eight read-only code pages on consecutive frames, one data page and one stack page, plus the kernel's entries, and its frames are all that left the free sets |
| FirstProcess.InitPagesAt | src/context.c:258-268 | which pages these are, by place |
| FirstProcess.CopyText | src/context.c:278 | the one flat copy fills exactly the code frames with the program |
| FirstProcess.ExecInit | src/context.c:246-282 | from a table with only the swapper the kernel's invariant holds afterwards with one RUNNING process whose code pages hold the program from the boot image |
| Separation.UserReach | src/entry.c:14-57 | under a live process's root a user access reaches exactly the mapped frame, which is an allocated user frame, and nothing below 4GB |
| Separation.KernelReach | src/context.c:68-104 | under every live root, whatever the processes have done, a kernel access to a frame of the first 128MB reaches it and to any other frame of memory faults |
| Separation.WritableFrameIsAlone | src/context.c:477-530 | a frame mapped writable by one live process is reached by no other user translation in the system |
| Scheduler.PickCharacterised | src/schedule.c:11-30 | slot 0 is chosen if and only if none of 1 to 15 is READY, else the READY slot nearest ahead in cyclic order, the caller last |
| Scheduler.PassedOver | src/schedule.c:11-30 | when a READY slot is passed over its cyclic distance strictly falls |
| Scheduler.NextComesFirst | src/schedule.c:14-21 | the slot after the caller's, and 1 after 15, is chosen whenever it is READY |
| Scheduler.Processor.PickNextContext | src/schedule.c:11-30 | the wrap-around scan terminates for every starting pid 0 to 15 and every table and returns that slot |
| Scheduler.Processor.Schedule | src/schedule.c:62-86 | the chosen context becomes RUNNING and current with its saved registers |
| Scheduler.Processor.SleepAndAlarmAccount | src/schedule.c:33-60 | every sleeper with ticks left loses one and wakes at 0; the current context's alarm counts down, fires and restarts; a word is pushed if and only if it fires with a handler, the old rip at the new rsp |
| Scheduler.Processor.HandleTimerTick | src/schedule.c:88-130 | accounting, then the pick; on a change the interrupted registers are saved and the other's loaded; a word to be pushed results if and only if the alarm was at 1 and has a handler: the interrupted rip, at the stack pointer that the interrupted context has afterwards |
| Scheduler.Processor.InvokeSyncSignal | src/entry.c:304-330 | with a handler rip becomes the handler and rsp falls by 8, and the old rip is to be stored there; without one nothing changes, SIGALRM is ignored and the others end the process |
| Scheduler.Processor.DoSleep | src/entry.c:232-241 | the caller waits with the truncated tick count and the pick's context runs |
| Scheduler.Processor.ExitAway | src/entry.c:210-228 | the caller's slot is unused and the pick's context runs |
| Scheduler.Processor.DoAlarm | src/entry.c:345-354 | both alarm counters of the caller are set for a positive count, else -1 and they stay |
| Scheduler.Processor.DoSignal | src/entry.c:333-342 | the handler is stored in the caller's place of that number and in no other, else -1 and they stay |
| Scheduler.Processor.DoClone | src/entry.c:263-302 | the new READY context has the caller's address space, segments, handlers, timers and registers, but rip at the thread function and rsp and rbp at its stack |
| SchedulerRuns.StepKeeps | src/schedule.c:88-130 | every event keeps: pid equals slot, slot 0 READY or RUNNING, only the current context RUNNING, the current one READY or RUNNING |
| SchedulerRuns.TickFrameEffect | src/schedule.c:51-57 | a tick alters the interrupted registers only by delivering a due alarm that has a handler, and then only rip and rsp |
| SchedulerRuns.RunningAfterTick | src/schedule.c:102-124 | after a tick the current context is RUNNING if and only if the pick differs from the interrupted slot |
| SchedulerRuns.RegistersKept | src/schedule.c:106-124 | every context's registers, saved or on the frame, survive every tick and system call; a forked child starts with its parent's |
| CallEffects.OthersKept | src/schedule.c:88-130 | no event changes a used slot's number, parent, address space, OS stack or segments; handlers and alarm change only by the context's own calls and ticks |
| CallEffects.UnusedKept | src/schedule.c:88-130 | a slot not in use changes only when a fork or clone fills it |
| CallEffects.ForkEffect | src/entry.c:243-258 | the child is the caller in its handlers, timers, segments and registers; its parent is the caller; nobody else changes |
| CallEffects.ChildSignal | src/entry.c:243-330 | a signal raised in the child when it first runs is delivered exactly as in the parent at the fork |
| CallEffects.CloneEffect | src/entry.c:263-302 | the new context's registers are the caller's but for rip, rsp and rbp; its address space, handlers and timers are the caller's |
| CallEffects.TickPushIs | src/schedule.c:51-57 | a tick pushes if and only if the alarm is due and has a handler; the word is the interrupted rip, and the interrupted context goes on in the handler with its stack pointer at the word |
| CallEffects.TickAlarm | src/schedule.c:51-57 | the interrupted context's countdown after a tick |
| CallEffects.SignalEffect | src/entry.c:333-342 | which handler is where after a signal call |
| CallEffects.AlarmZero | src/entry.c:345-354 | alarm(0) leaves a running alarm as it is |
| Fairness.RunKeeps | src/schedule.c:88-130 | the table invariant holds at every point of every run of enabled events |
| Fairness.StaysInLine | src/schedule.c:11-30 | a READY context stays READY until chosen, whatever event happens |
| Fairness.BoundedWaiting | src/schedule.c:88-125 | in every run a READY context is chosen within as many picks as its cyclic distance, at most 15, from any current slot |
| Fairness.FallsAsleep | src/entry.c:232-241 | the caller of sleep waits with the count modulo 2^32 |
| Fairness.SleepsOn | src/schedule.c:38-46 | after fewer than n ticks a sleeper of n is still WAITING with exactly the rest to go |
| Fairness.Wakes | src/schedule.c:38-46 | at the nth tick it is READY, or already chosen |
| Fairness.SleepResponse | src/schedule.c:33-46 | it runs again within n + 14 ticks |
| Fairness.SleepZero | src/schedule.c:41 | a sleep of 0 never ends |
| Fairness.AlarmStarts | src/entry.c:345-354 | a positive alarm starts the countdown at its value modulo 2^32 |
| Fairness.AlarmPeriodic | src/schedule.c:51-57 | m ticks under a context with alarm k invoke exactly m / k SIGALRMs and leave k - m mod k; ticks under others do not count |
| Coexist.SchedulingKeepsMemory | src/schedule.c:62-130 | what every scheduler event but a clone does to the process table keeps the kernel's memory invariant, given it holds of the table with the event's slots made or emptied |
| Coexist.CurrentIsLive | src/schedule.c:62-86 | the current slot, when it is not the swapper's, is a live process with a tree |
| Coexist.InitScheduled | src/context.c:279-282 | exec_init leaves the scheduler's invariant true |
| WholeKernel.TablesDecide | src/context.c:144-187 | over any change of memory the kernel's invariant survives if and only if every table of every live process does |
| WholeKernel.ActKeeps | src/entry.c:139-473 | over every tick, call, fault, signal and user store the memory invariant and the scheduler's invariant survive together if and only if the act's push, if it makes one, changes no table of a live process |
| Undisturbed.OwnPushSpares | src/entry.c:321-322 | a push to where the process could have written itself changes no table and no page of another process |
| Undisturbed.PushIntoTable | src/entry.c:321-322 | a push of an even value to the process's first-level table goes through, a user write there does not, and no trees at all satisfy the invariant afterwards |
| Undisturbed.PushIntoShared | src/entry.c:321-322 | a push to a page shared with another process, which the process could not write, changes the other's page |
| Undisturbed.RunWorldOk | src/entry.c:139-473 | over every run both invariants hold at every point if and only if no push changes a table of a live process |
| Undisturbed.OwnPushesOk | src/entry.c:304-473 | in particular when every push goes where its process could have written |
| Undisturbed.WorldIsolated | src/entry.c:139-473 | the invariants imply that the address spaces are isolated |
| Undisturbed.StoreContents | src/context.c:477-530 | a user store changes no page of another process |
| Undisturbed.OthersUndisturbed | src/entry.c:139-473 | each step leaves every process but the running one its tree, and the contents of all its pages if and only if the step's push spares them |
| Undisturbed.RunUndisturbed | src/schedule.c:62-130 | over every run a process that has not run in between keeps its tree and the contents of all its pages, if pushes spare tables and these pages |
| Undisturbed.OwnPushesUndisturbed | src/schedule.c:62-130 | in particular when every push goes where its process could have written |
| Returns.HandlerReturns | src/entry.c:304-330 | whenever a tick or a fault enters a handler, the stack pointer is at eight bytes that hold the interrupted rip, and the process itself reads it there whenever it could have written there |
| ReadFirst.NeverWritten | src/entry.c:78-119 | over every run: under the table that a read fault made no page is ever writable for the process |
| SystemFrames.ReservedStays | src/memory.c:87-127 | a step keeps frames that belong to no process allocated and outside all trees and OS stacks, and their contents if its push spares them; an exit adds the tree that is left behind |
| SystemFrames.OsPmdStaysTracked | src/context.c:71-104 | os_pmd_pfn stays the kernel PMD of a live process or of one that has exited |
| SystemFrames.RunReserved | src/memory.c:87-127 | both over every run |
| SystemFrames.OsPmdReady | src/context.c:385 | so the last exit finds os_pmd_pfn allocated, and no part of the tree but its kernel PMD |
| KernelRun.FaultThenTick | src/entry.c:420-473 | a fault that the push of a tick raises is the same as one before the tick |
| KernelRun.Computer.TimerTick | src/schedule.c:88-130 | the tick with its push is a step of the whole kernel or, when the push faults, changes nothing yet; a handler entered can return as Returns.HandlerReturns says; the invariants survive if and only if the push spares the tables, in particular when the process could have made it |
| KernelRun.Computer.Store | src/context.c:144-187 | a store goes where the translation puts it, or changes nothing |
| KernelRun.Computer.Sleep | src/entry.c:232-241 | sleep is a step of the whole kernel |
| KernelRun.Computer.Expand | src/entry.c:139-165 | the break of DATA for segment 1, of RODATA for 0, is returned and moved by size pages as a step of the whole kernel; a refused call changes nothing |
| KernelRun.Computer.Signalled | src/entry.c:304-330 | SIGSEGV and SIGFPE enter the handler with the return address pushed, or end the process as exit does; the invariants survive if and only if the push spares the tables |
| KernelRun.Computer.PageFault | src/entry.c:420-473 | which faults are served, segment by segment, and what the process reaches at the address afterwards; a served one is a step of the whole kernel if and only if the frame it was given was free; another one is SIGSEGV |
| KernelRun.Computer.Shrink | src/entry.c:167-193 | the break of DATA for 1, of RODATA for 0, moves down, and exactly the pages between the breaks go; with no other process on them that is a step of the whole kernel; a refused call changes nothing |
| KernelRun.Computer.Fork | src/entry.c:243-258 | it faults if and only if a copy is out of the kernel's reach; otherwise it is a step of the whole kernel, the child's slot has the caller's fields, and the child sees the caller's pages |
| KernelRun.Computer.DoExit | src/entry.c:195-228 | with others left the exit is a step of the whole kernel; the last one gives everything back as LastExit.CleanUp says |
| KernelRun.Computer.Exit | src/entry.c:195-228 | the same with the register save of a system call |
| LastExit.CleanUp | src/context.c:371-390 | after the last exit the free user frames are those before and all pages, the free page-table frames those before, the OS stack, and all tables with os_pmd_pfn for the kernel PMD, and the page-table count is one too high |
| LastExit.ReleasesCommute | src/context.c:378-385 | the order of the releases makes no difference, so the second release of the stack may be counted last |
| LastExit.WholeLife | src/context.c:371-390 | over the whole life of the only process all bits of both lists return, and the page-table count is one too high |
| Boot.InitSwapper | src/context.c:442-471 | two page-table frames are taken and the zeroed table has the swapper READY in slot 0, its rip at its idle function, its rsp at the end of its stack frame and its segment registers as read |
| Boot.BootInit | src/main.c:43-65 | from any memory contents, boot and the init command reach a state in which the kernel's memory invariant and the scheduler's invariant both hold, the code frames hold the program from the boot image, and the five system frames are outside the tree and the OS stack |
| Boot.Start | src/main.c:43-65 | the booted machine with the first process running is one to which all these calls apply, with its system frames reserved and os_pmd_pfn the tree's own |
| PageList.BootReach | src/memory.c:26-49 | the first allocations after boot take the frames after the reserved ones, in order |
| Queue.NodePool.NodeAlloc | src/memory.c:229-260 | none when the count is 0; a place behind the pool when the index is there and the word there is null; else the first node with a null link from the pool index on, or, when there is none, the first of the pool |
| Queue.NodePool.NodeFree | src/memory.c:262-267 | the count is raised and the node's link cleared; unused nodes are not touched |
| Queue.List.EnqueueTail | src/lib.c:174-198 | the item goes to the end of the sequence, on first use, in use and after draining, although the tail sentinel uses the shared field as a back pointer |
| Queue.List.DequeueFront | src/lib.c:200-213 | the oldest item's node leaves, or none when empty |
| Queue.Drive | src/lib.c:174-213 | every interleaving of enqueue_tail and dequeue_front on one list ends with the contents, and has handed out the items, that the abstract queue says |
| Queue.FirstInFirstOut | src/lib.c:174-213 | of the abstract queue: in every interleaving what came out followed by what is left is what went in, in order |
| PrintParse.CollectDecimal | src/lib.c:82-86 | the digit loop uses at most ten of its twenty characters |
| PrintParse.CollectHex | src/lib.c:106-112 | the hexadecimal loop uses at most sixteen |
| PrintParse.FormatDecimal | src/lib.c:68-90 | %d prints the sign and the decimal numeral of every int but the most negative |
| PrintParse.FormatHex | src/lib.c:92-118 | %x prints the sign, 0x and the numeral in capitals of every long but the most negative |
| PrintParse.NumeralMeaning | src/lib.c:82-88 | a numeral's digits are in range, have no leading zero, and mean the number |
| PrintParse.DecimalMeaning | src/lib.c:68-90 | a decimal text is a minus sign for a negative number and then digits 0 to 9 that mean its magnitude |
| PrintParse.HexMeaning | src/lib.c:92-118 | a hexadecimal text is the sign, 0x, and digits 0 to 9 and A to F that mean the magnitude |
| PrintParse.ParseInit | src/shell.c:21-40 | on any command buffer in which the scan ends after at most five fields the arguments become exactly these, later ones stay |
| PrintParse.TrailingBlanks | src/shell.c:21-40 | after any numbers and trailing blanks the terminator is passed over and the bytes behind it are parsed as one more number |
| PrintParse.ReadBackIff | src/shell.c:21-40 | a line of any numbers, whatever lies behind its terminator, is read back if and only if no blank follows the last one |
| PrintParse.PrintParseRoundTrip | src/shell.c:21-40 | decimal numerals separated by any runs of spaces and tabs parse to their numbers, whatever the buffer holds behind the terminator |
| PrintParse.PrintAndParse | src/shell.c:21-40 | one to five non-negative ints printed with %d behind the command name and parsed by parse_init come back in the arguments |

## Left out

- Inline assembly, CR3 and TLB handling, the GDT, IDT and TSS, boot code, devices and the shell loop: a switch is "the chosen context becomes current with its saved registers".
- Out-of-memory and no-free-slot paths: the C callers do not check them, so enough frames and a free slot are preconditions, stated exactly (missing tables, fork budget, clear runs).
- The bitmap of a region lies in that region's first frames in C; here it is an object of its own, and the first frame of a region is only known to be reserved. Bitmaps are zero at boot, as the C code assumes.
- Regions whose size is not a multiple of 32 pages: the three regions of memory.h are.
- What the page-fault handler does after a fork has faulted in the kernel: the model stops at the fault, with the state it leaves.
- The page tables of the boot loader, under which `exec_init` copies the program: they are taken to map all of memory. The caching of translations, on which `pt_cleanup` relies while it clears the tree it runs under.
- Kernel accesses ignore the write bit (CR0.WP clear); the kernel's own entries are all writable.
- The accessed and dirty bits that the processor sets in entries: the model's entries carry only the flags that the code writes.
- The fields `name`, `type`, `used_mem`, `os_rsp`, `pending_signal_bitmap`, the statistics and the byte layout of `exec_context`.
- Scheduler.Processor.InvokeSyncSignal: the word to be stored and its address are results; KernelRun.Computer makes the store.
- Scheduler.Processor.HandleTimerTick: likewise; KernelRun.Computer.TimerTick makes the store.
- KernelRun.Computer.TimerTick: a push that faults where the fault handler maps no page, which is SIGSEGV inside the kernel, is not followed further.
- The value a system call returns in rax is left to the running context.
- Pushes into the kernel's own code and data, below the page-table frames: no invariant of the model speaks of them.
- `do_clone` in the address-space invariants: it shares a tree but copies the segments, so it appears in the scheduler only, and not in the runs of the whole kernel.
- KernelRun.Computer.Shrink: RODATA shrinks of pages shared by a fork are outside the runs; Syscalls.System.DoShrink has the exact condition.
- KernelRun.Computer.Fork: forks that fault are outside the runs; Syscalls.System.DoFork says what they leave behind.
- Exits that are not the last free no tables in C, and neither does the model; their frames stay allocated.
- `SYSCALL_CONFIGURE`, which rewrites the options, `global_mapping` among them, at run time: the options are constants here, so all trees have the same kernel entries.
- Lifecycle.TearDown: covers the tables and pages; LastExit.CleanUp has the OS stack frame, released twice, with them.
- Scheduler.Processor.ExitAway: starts after the scan for other processes, which Syscalls.System.DoExit has; the return to the shell after the last exit ends a run.
- Queue.NodePool.NodeAlloc: a pool without any null link, whose scan does not stop inside it, is excluded.
- Queue.Drive: as many fresh nodes as operations; on a pool whose index has been round the end, a null link also occurs at live list ends.
- PrintParse.ParseInit: a scan that leaves the buffer, or that finds more than five fields, writes or reads outside the arrays in C and is excluded.
- `os_alloc` and its chunks, `pt_walk`, `do_write`, string helpers, `%c`, `%s` and `%u` of `vprintf`: they would add only easy members, or do not hold as written.
