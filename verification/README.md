# KKM in Dafny

KKM is a kernel module that runs a guest payload as an ordinary set of page tables and registers,
without hardware virtualization. It copies the native kernel's top-level page table twice (for a guest
kernel and for the payload), hangs the monitor's lower-level tables below both, and then moves the CPU into
the payload and back with hand-written entry and exit code. This project models four parts of it and proves
what each of them promises.

**Tables and translation** (`Paging`, `Mmu`, `MmuRuns`, `MemSlots`, `Translation`, `AccessRights`,
`KernelHalves`, `PageFaults`). Physical memory is a map from (table, index) to 64-bit entries, so shared
subtrees are shared here as well; a store past the end of a table lands in the page after it, as in C. `Walk`
is the hardware's walk (Intel SDM Vol. 3A section 4.5). The class `PhysicalMemory` carries kkm_mmu.c statement
by statement; each method is equated with a function on memories. `MmuRuns` proves an invariant over every run
of syncs, private-page updates, per-CPU guest areas and arbitrary native activity. On it rest the theorems
that the arithmetic of `kkm_guest_va_to_monitor_va` agrees with the walk, that both guest tables resolve every
address alike, and that a fault reported as resolved is resolved. `AccessRights` collects user, write and
execute rights over whole walks.

**The run loop** (`RunLoop`, `RunLoopProofs`, `Exits`, `UserFrames`, `Kontexts`, `TlbIsolation`). `RunLoop`
gives kkm_kontext.c on values; the class `Kontexts.Kontext` updates fields in place, loop included, and every
method is proved equal to its counterpart. Runs quantify over all traps, signals, user-copy outcomes and
monitor calls. `Exits` says, for every way a visit can end, what KKM_RUN returns and hands to the monitor.
`UserFrames` ties the frames it builds on the payload's stack to the translation. `TlbIsolation` is a machine
of CPUs, threads and kontainers with arbitrary interleaving.

**The world switch** (`Machine`, `Straight`, `TlbFlush`, `Flags`, `Anchors`, `EntryCode`, `ExitCode`,
`Arrival`, `CHalves`, `HostReturn`, `WorldSwitch`, `Flushes`, `Visits`, `Layout`, `DebugRegisters`, and
`Relocation` for the system call stub). `Machine` gives the instructions the entry and exit code uses a step
semantics over registers and words; `Machine.Processor` executes programs in place. The assembly files are
programs of that machine, in source order and with the offsets of kkm_offsets.h. A `Pass` lists the state
before and after each program of one trip through the payload. Between the programs compiled C code may change
every general register and the guest stack, and the payload may change whatever user mode can change. `Visits`
proves that one pass is one visit of the run loop, so that the logs the run theorems speak of are what the
machine does. `Layout` states the same by byte offsets and field names, and `Flushes` by the values written to
cr4.

**Lifetime** (`Counting`, `Lifetime`, `FailedAdds`). Kontext slots, the reference count and a ledger of
allocated pages, with release in the three steps other calls can come between; `FailedAdds` follows the two
counts when adding a kontext fails half-way.

`Constants` holds numbers that several of these share.

## Findings

- A repeated page fault ends a run with -EFAULT at the 18th resolved fault in a row, so the payload is
  re-entered on one fault at most 17 times (`KKM_MAX_REPEAT_TRAP` is 16; kkm/kkm.h:42).
- `kkm_process_page_fault` returns DONE without looking at the result of `kkm_mmu_update_priv_area`
  (kkm/kkm_kontext.c:1016-1021). With the monitor's page made present by the copies before it, the update
  cannot fail; what DONE then means depends on whether the kontainer was synced, and
  `PageFaults.DoneMeansResolved` says exactly how. For a private address beyond the 2 MiB of its page
  table DONE is returned as well, and the walk at that address stays as it was.
- `kkm_mmu_sync` compares frames only (kkm/kkm_mmu.c:391-394). The guest's window has the monitor's rights after a
  sync if and only if the sync wrote, or it had them before (`AccessRights.SyncInStepExactly`). When the monitor
  makes its entry read-only and keeps the frame, the guest's stays writable (`AccessRights.StaleRights`).
- Two private pages share an entry of the private page table exactly when the VDSO slot is longer than 2 MiB, or
  the guest-mem slot is longer than 2 MiB - 32 KiB beside a VDSO slot, or than 2 MiB alone
  (`PageFaults.PrivatePagesCollideExactly`; `PageFaults.CollidingSlots` gives an input). Nothing in the code
  refuses such slots.
- The page-table index of a CPU's guest area has no bound (kkm/kkm_mmu.c:32-37, 201-211; the caller,
  kkm/kkm_kontext.c:327-329, passes the number of the CPU). The four entries stay in the kx page table if and
  only if the CPU's number is below 64 (`Mmu.GuestAreaEntries`); from CPU 64 on they go into a page after it. The
  invariant of the tables survives them, whatever they hold, if and only if that page is not one that leads to
  others: no table of the kontainer or the kx slot but a last-level one, and no native table above the last
  level (`MmuRuns.AreaKeepsInvExactly`). `MmuRuns.CpuWithoutRoom` is a state in which the two guest tables part.
- kkm/kkm_main.c:554 refuses slot numbers above 64 and lets 64 through, which indexes past the 64 slots
  (kkm/kkm.h:181). It is the only such number (`MemSlots.OnePastTheEnd`), and the table stays consistent if and
  only if the call fails or names another one (`MemSlots.SlotTable.SetMemory`).
- The overlap scan in `kkm_set_kontainer_memory` skips used slots, so it never finds an overlap: the call
  accepts a region without regard to the others (`MemSlots.SlotTable.SetMemory`).
- The rewritten gs accesses zero-extend a signed displacement. They reach the original address if and only
  if that address sign-extends from 32 bits (`Relocation.RewriteKeepsMeaning`).
- Lazy TLB flushing is safe as long as no live kontainer's id is given out again. `kkm_init` sets the id
  counter to 1 at its end (kkm/kkm_main.c:961), after the device was registered (kkm/kkm_main.c:933). On
  processors with PCID, payloads are isolated in every run to come if and only if no kontainer alive at that
  moment has an id above 1 (`TlbIsolation.IsolatedExactlyWhenTimely`). Two kontainers created in between are
  enough for a run that is not isolated (`TlbIsolation.EarlyKontainersMix`).
- After a system call the payload gets its stack pointer back if and only if the arguments and their address could
  both be translated and copied (`RunLoopProofs.CallFrameUndoneExactly`). Otherwise rsp stays lowered by 184:
  nothing is pending, so nothing raises it. A thread whose gs base is 0 is a case (`UserFrames.CallWithoutGsBase`).
  An exception lowers rsp in any case; there is a frame if and only if it could be translated and copied
  (`RunLoopProofs.ExceptionLowersRspOnce`).
- `kkm_add_execution_kontext` installs a descriptor and marks the slot used before it allocates pages, and counts
  only afterwards, while every release counts down (kkm/kkm_main.c:494-530, 162-170). The kontainer goes with its last
  descriptor if and only if failed adds were as often without a descriptor as without pages
  (`FailedAdds.GoesWithTheLastExactly`). After one add without pages it goes while its own descriptor is open
  (`FailedAdds.GoneTooEarly`). The search for a slot stays in the table if and only if every add that passed the
  test against the count got its pages (`FailedAdds.StaysInTableExactly`); after 288 without, it leaves it
  (`FailedAdds.SearchLeavesTable`).
- Once the monitor has set debug registers, the host gets its own register 6 back only if nothing but causes of
  exceptions was in it; before that, the payload runs under the host's debug registers
  (`DebugRegisters.DebugUnit.Pass`).
- Comments that differ from the code: kkm_guest_exit.S:2680-2684 says the mask clears 12 bits, and it
  clears 13; kkm_kontext.c:549-554 speaks of payload_entry_stack and loads the address of redzone_bottom;
  the cr3 saved at kkm_guest_exit.S:2726-2727 is the guest kernel's, since it is read after the switch.

## Model

| member | source | states |
|---|---|---|
| Paging.WalkFollowsIndices | kkm/kkm_mmu.c:57-91 | a hardware walk depends on the address only through the indices of the levels it passes |
| Paging.WalkStaysInside | kkm/kkm_mmu.c:354-463 | walks of a closed set of tables ignore every write outside it: the frame rule for shared subtrees |
| Paging.EntryBits | kkm/kkm_mmu.c:50-60 | which bits of address and flags an inserted entry has, which addresses survive the 48-bit mask, and which bits are the frame |
| Mmu.InsertedEntry | kkm/kkm_mmu.c:50-60 | an inserted entry leads to the page given exactly when that is a page address of at most 48 bits, is present and no-execute as its flags say, never large, and no other entry moves |
| Mmu.PhysicalMemory.SetGuestArea | kkm/kkm_mmu.c:201-211 | a CPU's four entries are stored, and for the first 64 CPUs no table but the kx page table changes |
| Mmu.GuestAreaEntries | kkm/kkm_mmu.c:32-37 | all four go side by side into one page, which is the kx page table if and only if the CPU's number is below 64 |
| Mmu.PhysicalMemory.CopyRange | kkm/kkm_mmu.c:257-263 | exactly the entries named are copied, and from the source as it was |
| Mmu.PhysicalMemory.CreatePml4 | kkm/kkm_mmu.c:127-183 | three zeroed pages become one private slot: links at the indices of the address and nothing else |
| Mmu.PhysicalMemory.SetupOnePgd | kkm/kkm_mmu.c:265-319 | the kernel half of one table, in both paging modes |
| Mmu.PhysicalMemory.CopyKernelPgd | kkm/kkm_mmu.c:321-346 | both halves set up, or memory untouched and an error when there is no monitor table |
| Mmu.PhysicalMemory.Sync | kkm/kkm_mmu.c:354-463 | the memory `kkm_mmu_sync` leaves, with its early returns, in both paging modes |
| Mmu.PhysicalMemory.GetTable | kkm/kkm_mmu.c:62-91 | one step of kkm's own walk: fails on an absent entry and otherwise yields the frame |
| Mmu.PhysicalMemory.UpdatePrivateArea | kkm/kkm_mmu.c:469-526 | succeeds exactly when kkm's walk of the monitor address reaches a page table, and then copies one entry |
| MmuRuns.KernelHalfEntries | kkm/kkm_mmu.c:265-319 | entry by entry what setting up a kernel half changes |
| MmuRuns.CreatedHasInv | kkm/kkm_main.c:688-742 | a fresh kontainer has the invariant: twins, user half, kernel half, private slots |
| MmuRuns.SyncKeepsInv | kkm/kkm_mmu.c:354-463 | a sync keeps it, whatever the monitor's entry has become |
| MmuRuns.StepKeepsInv | kkm/kkm_mmu.c:201-211 | so does every other step: private pages, guest areas that miss the tables leading to others, native activity |
| MmuRuns.AreaKeepsInvExactly | kkm/kkm_mmu.c:201-211 | a CPU's guest area keeps it, whatever its pages, if and only if it misses those tables |
| MmuRuns.FirstCpusMiss | kkm/kkm_mmu.c:32-37 | the first 64 CPUs' areas always miss |
| MmuRuns.CpuWithoutRoom | kkm/kkm_mmu.c:201-211 | CPU 64 breaks it when a guest top-level table follows the kx page table |
| MmuRuns.InvAlways | kkm/kkm_mmu.c:354-526 | and so does every run of them |
| MmuRuns.TwinsWalkAlike | kkm/kkm_mmu.c:402-456 | with the invariant, every address has one walk in both guest tables, although entry 511 differs in 5-level mode |
| MmuRuns.GuestTablesAgreeAlways | kkm/kkm_mmu.c:265-463 | in every state reachable from creation, guest-kernel and guest-payload tables resolve every address alike |
| MemSlots.SlotTable.SetMemory | kkm/kkm_main.c:543-620 | accepts exactly aligned regions that fill an empty slot or empty a used one, refuses slot numbers above 64, changes that slot and the count only, and ends with a sync; the table stays consistent (count = used slots, empty slots zero, sizes and frames exact) if and only if the call fails or the number is not 64 |
| MemSlots.AcceptedExactly | kkm/kkm_main.c:554-571 | in numbers: slot at most 64, address, size and frame multiples of 4096, and size 0 exactly for a used slot |
| MemSlots.OnePastTheEnd | kkm/kkm_main.c:554-556 | the test lets exactly one number through that names no slot |
| Translation.TranslatedExactly | kkm/kkm_kontext.c:1121-1187 | exactly which addresses translate, which slot or window wins where two cover one, and byte by byte to where in the slots' regions |
| Translation.WindowByte | kkm/kkm_kontext.c:1137-1154 | byte d of guest memory through either window |
| Translation.VdsoByte | kkm/kkm_kontext.c:1156-1170 | byte d of the VDSO slot is byte d of the region registered in slot 41 |
| Translation.GuestMemByte | kkm/kkm_kontext.c:1172-1187 | byte d of the guest-mem slot is byte d of the region registered in slot 42 |
| Translation.PrivatePageOfRegion | kkm/kkm_kontext.c:1156-1170 | pages of the slot are pages of the region, by the frame number the slot was given |
| Translation.WindowIndices | kkm/kkm_kontext.c:1121-1154 | the arithmetic keeps offset and lower indices and moves the slot to the monitor's, for both bases |
| Translation.TranslationAgrees | kkm/kkm_kontext.c:1121-1154 | in a synced state, walking either guest table at a window address gives the monitor's walk at the translated one |
| Translation.TranslationAgreesAlways | kkm/kkm_externs.h:37-56 | after a sync, any run that leaves the monitor's top entry in place keeps this, writes to shared lower tables included |
| Translation.SyncMakesCurrent | kkm/kkm_mmu.c:354-463 | a sync makes the window entry point where the monitor's does |
| Translation.CurrentAlways | kkm/kkm_mmu.c:354-463 | and it stays so until the monitor's top entry changes |
| Translation.SyncContract | kkm/kkm_mmu.c:354-463 | entries 0 and 255 equal, NX clear, frame as the monitor's; entry 1 empty or the private slot; a second sync writes nothing |
| AccessRights.SyncCopiesEveryBit | kkm/kkm_mmu.c:354-463 | a sync that writes leaves entries 0 and 255 of both tables equal to the monitor's in every bit but 63, and bit 63 clear |
| AccessRights.SyncInStepExactly | kkm/kkm_mmu.c:391-400 | the window has the monitor's bits after a sync if and only if it wrote, or had them before |
| AccessRights.StaleRights | kkm/kkm_mmu.c:388-394 | a change of rights under the same frame is not copied, and the guest's window stays writable |
| AccessRights.WindowRights | kkm/kkm_mmu.c:354-463 | user and write rights over the whole walk of a window address are the monitor's from the synced entry down, and execution is forbidden by nothing but lower entries |
| AccessRights.WindowRightsAlways | kkm/kkm_mmu.c:354-463 | and they stay so over every run that leaves the monitor's top entry in place |
| AccessRights.PrivateRights | kkm/kkm_mmu.c:127-183 | a private page grants what the copied leaf does; the links above take nothing away |
| AccessRights.AreaIsMapped | kkm/kkm_mmu.c:201-222 | page i of a CPU's guest area is found at its fixed address in both tables, kernel only, writable, not executable |
| Translation.PrivateSlotWalk | kkm/kkm_mmu.c:127-183 | the private slot resolves through its one page table and faults outside its 2 MiB |
| Translation.SmallWalk | kkm/kkm_mmu.c:62-91 | kkm's own walk reaches the table in which the hardware finds the leaf, if no page on the way is large |
| Translation.PrivatePageContract | kkm/kkm_mmu.c:469-526 | one guest entry changes; the fault address then walks to the monitor's leaf; no other address's walk changes; if the monitor walk fails, nothing changes |
| KernelHalves.KxSlotAddresses | kkm/kkm_mmu.h:59-65 | which addresses the kx slot holds, in both paging modes |
| KernelHalves.KernelHalfAgrees | kkm/kkm_mmu.c:265-346 | after creation every kernel-half address walks as in the native kernel, except the kx slot, which walks through the kx tables |
| PageFaults.PrivateAddressesFit | kkm/kkm_kontext.c:1156-1187 | private translations stay in the slot's 2 MiB if and only if both slots fit |
| PageFaults.PrivatePagesNeverCollide | kkm/kkm_mmu.c:469-526 | inside those 2 MiB two addresses share an entry exactly when they share a page |
| PageFaults.PrivatePagesCollideExactly | kkm/kkm_kontext.c:1156-1187 | no two private pages share an entry if and only if the slots are apart, over all sizes and used flags of both |
| PageFaults.CollidingSlots | kkm/kkm_kontext.c:1156-1187 | two slots and two pages that do share one |
| PageFaults.WindowFaultResolves | kkm/kkm_kontext.c:964-1065 | what a window address reaches: the monitor's leaf while the window entry is the monitor's, nothing while it is absent, and through an outdated one what the monitor's former table holds |
| PageFaults.DoneMeansResolved | kkm/kkm_kontext.c:964-1065 | on DONE the monitor's leaf is present, and both guest tables reach it at cr2 if the private slot is installed or the window entry is the monitor's; otherwise, and for private addresses beyond the 2 MiB, it says what they reach |
| PageFaults.DoneMeansUsable | kkm/kkm_kontext.c:983-1035 | on DONE the payload has user rights at cr2, and write rights after a write fault, if the private page is reachable or the window in step |
| RunLoopProofs.RepeatFaultBound | kkm/kkm_kontext.c:304-462 | over any run: -EFAULT for repeats exactly when the run of identical resolved faults has length 18, and never more than 17 re-entries |
| Exits.EighteenFaults | kkm/kkm_kontext.c:421-456 | n visits ending in one resolved fault: -EINTR after n of them by a signal for n up to 17, -EFAULT after the 18th |
| RunLoopProofs.CountTracks | kkm/kkm_kontext.c:421-456 | after a resolved fault, counter + 1 is the length of the current run, and the all-ones counter is never incremented |
| RunLoopProofs.PendingStatesExclude | kkm/kkm_kontext.c:161-302 | over any monitor calls: system call and exception never both pending, a new thread has neither, no pending call means no result address, and the payload starts with neither |
| RunLoopProofs.GetThenSetRestores | kkm/kkm_kontext.c:178-220 | GET followed by SET is the identity |
| RunLoopProofs.SyscallFrameUndoneOnce | kkm/kkm_kontext.c:225-302 | after a system call and any exits, failed copies and save/restore pairs, the payload starts with its own rsp and the first result delivered |
| RunLoopProofs.StillOwed | kkm/kkm_kontext.c:1067-1119 | until a response goes through the frame is owed, and afterwards it is not |
| RunLoopProofs.CallFrameUndoneExactly | kkm/kkm_kontext.c:1067-1119 | after a system call and any exits, failed copies and save/restore pairs, the payload has its own rsp if and only if both copies were made; otherwise it stays 184 lower |
| RunLoopProofs.LostCallStays | kkm/kkm_kontext.c:1098-1110 | a call whose arguments are copied and their address is not |
| RunLoopProofs.ExceptionLowersRspOnce | kkm/kkm_kontext.c:806-898 | after an exception and any exits and save/restore pairs, the payload starts with its own registers, only rsp lowered by 64 or 72; the frame is there and the exception announced if and only if the copy was made |
| UserFrames.CallFrameIsAtRsp | kkm/kkm_kontext.c:1067-1119 | the result's word and rdi, rsi, rdx, r10, r8, r9 go where the translation of the lowered rsp says, its address where that of the gs base does, with the exit record; until a result was taken kkm reads it from the translation of rsp |
| UserFrames.ExceptionFrameIsAtRsp | kkm/kkm_kontext.c:806-898 | the interrupted context goes where the translation of the lowered rsp says, with that rsp in rax and the number in rbx |
| UserFrames.FramesFit | kkm/kkm_externs.h:74-84 | the frames are as long as what rsp is lowered by |
| UserFrames.CallWithoutGsBase | kkm/kkm_kontext.c:1098-1110 | a thread whose gs base is 0 makes a call that leaves rsp lowered |
| UserFrames.HypercallIsAtRip | kkm/kkm_kontext.c:923-962 | a fault is a hypercall exactly when rip translates and an OUT can be read there |
| UserFrames.FaultIsAtCr2 | kkm/kkm_kontext.c:964-1065 | and a page fault is resolved exactly when cr2 translates and the copies succeed |
| Exits.HypercallIsReported | kkm/kkm_kontext.c:923-962 | an OUT makes KKM_RUN return 0 with port, data and reason as given by rdx and rax; every other general protection fault returns -EFAULT |
| Exits.HypercallIsSteppedOver | kkm/kkm_kontext.c:923-962 | whatever comes between, the payload goes on with its own registers one byte after the OUT |
| Exits.SyscallIsReported | kkm/kkm_kontext.c:1067-1119 | the seven words of the frame in order, the exit record, registers, pending state and return value, in every case of the copies |
| Exits.ExceptionIsReported | kkm/kkm_kontext.c:806-898 | for each vector, with and without error code: the words of the frame in order, the exit record, registers, pending state and return value |
| Exits.DebugIsReported | kkm/kkm_kontext.c:899-921 | debug and breakpoint exits, and where the payload then is |
| Exits.NmiIsReported | kkm/kkm_kontext.c:691-706 | an NMI returns to the monitor with nothing to report |
| Exits.HostInterruptsResume | kkm/kkm_kontext.c:765-775 | every other vector changes nothing of the payload and lets it go on |
| Exits.ResolvedFaultResumes | kkm/kkm_kontext.c:964-1065 | by the bits of the error code: a resolved fault clears cr2, drops the address from the TLB, and is recorded |
| Exits.UnresolvedFaultReturns | kkm/kkm_kontext.c:964-1065 | the return value of every other page fault |
| Exits.EarlyReturns | kkm/kkm_kontext.c:257-313 | immediate exit, pending signal and unreadable response: return value and state |
| Exits.NewThreadStarts | kkm/kkm_kontext.c:274-288 | a new thread over the area of a system call starts 184 bytes higher, once, whatever comes before; any other at its own rsp |
| Exits.ReuseMeans | kkm/kkm_kontext.c:161-176 | what REUSE sets, and that it sets nothing else |
| Exits.SaveInfoMoves | kkm/kkm_kontext.c:178-220 | what GET hands out, SET gives to any kontext, and nothing else of it changes |
| RunLoopProofs.PayloadFindsLatestXstate | kkm/kkm_kontext.c:368-417 | after any calls the payload starts with the extended state it last left or the monitor wrote since, once there is one, and each later visit with what the visit before left; the host always gets its own back |
| RunLoopProofs.XstateCarried | kkm/kkm_kontext.c:368-417 | with any calls but writes of the extended state in between, across all runs every entry but the first finds the state the entry before it left |
| Kontexts.Kontext.Reuse | kkm/kkm_kontext.c:161-176 | REUSE in place: a new thread with nothing pending and no debug registers |
| Kontexts.Kontext.GetInfo | kkm/kkm_kontext.c:178-201 | GET_SAVE_INFO in place: hands out and clears the pending state |
| Kontexts.Kontext.SetInfo | kkm/kkm_kontext.c:203-220 | SET_SAVE_INFO in place |
| Kontexts.Kontext.HandleSyscallResponse | kkm/kkm_kontext.c:225-252 | the result goes to rax and rsp is raised modulo 2^64, or everything stays and the call fails |
| Kontexts.Kontext.HandleException | kkm/kkm_kontext.c:806-898 | the words of the exception frame are copied and announced and rax, rbx are kept aside, or the copy failed |
| Kontexts.Kontext.HandleHypercall | kkm/kkm_kontext.c:923-962 | an OUT instruction becomes a hypercall, its port and data handed on, and is stepped over |
| Kontexts.Kontext.HandleSyscall | kkm/kkm_kontext.c:1067-1119 | the argument words below the red zone, their address where gs points, and the pending call |
| Kontexts.Kontext.HandlePageFault | kkm/kkm_kontext.c:964-1065 | the fault's address and code are recorded, the return value per outcome, and on DONE cr2 is cleared and the address dropped from the TLB |
| Kontexts.Kontext.HandleIntr | kkm/kkm_kontext.c:666-783 | the dispatch on the interrupt number |
| Kontexts.Kontext.Prepare | kkm/kkm_kontext.c:257-307 | everything before the label begin |
| Kontexts.Kontext.SwitchKernel | kkm/kkm_kontext.c:257-462 | the whole loop in place equals the run on values, log of entries included |
| TlbIsolation.IdTable.Claim | kkm/kkm_kontext.c:336-349 | the flush decision spelled out, and the per-CPU record of the last id |
| TlbIsolation.FlushIsSaved | kkm/kkm_kontext.c:336-344 | exactly when an entry does without a flush |
| TlbIsolation.StepKeepsInv | kkm/kkm_idt.c:336-344 | after every event, a thread that would enter a CPU without a flush finds its own kontainer's translations only |
| TlbIsolation.PayloadsAreIsolated | kkm/kkm_kontext.c:339-349 | over any interleaving, from the registration of the device on, no payload runs on a CPU that holds another kontainer's translations, provided kkm_init ends in time |
| TlbIsolation.IsolatedExactlyWhenTimely | kkm/kkm_main.c:933-961 | in time means: no live kontainer has an id above 1 when the counter is set; otherwise some run is not isolated |
| TlbIsolation.EarlyKontainersMix | kkm/kkm_main.c:933-961 | such a run from the start, with two kontainers created before kkm_init ends |
| Machine.Processor.Execute | kkm/kkm_guest_entry.S:145-272 | each instruction in place has exactly the effect of its step |
| Machine.Processor.ExecuteAll | kkm/kkm_guest_entry.S:145-272 | a program in place has exactly the effect of its steps |
| EntryCode.EntryLoadsContext | kkm/kkm_guest_entry.S:145-272 | all 16 registers, rip, rflags, cs, ss and cr3 are what the guest area says, cr2 is 0, cr4 as before, GS bases swapped; only eight words below rsp and eight of the iret stack are written |
| Layout.EntryByWords | kkm/kkm_offsets.h:35-56 | the entry code by byte offsets: each register, rip, rflags, cs, ss and cr3 from its word |
| Flushes.EntryFlushes | kkm/kkm_guest_entry.S:238-253 | cr4 is written with bit 7 changed and then as it was if and only if the payload's cr3 has nothing in its low byte; otherwise not at all |
| ExitCode.AfterIntrCommon | kkm/kkm_guest_exit.S:2615-2768 | every register, control register and trap word saved in its slot; rdi is the area found by masking rsp; cr3 loses bit 12; nothing else is written but three words of the trap stack |
| Layout.ExitByWords | kkm/kkm_offsets.h:35-69 | the exit code by byte offsets: each register and trap word to its word |
| Flushes.ExitFlushes | kkm/kkm_guest_exit.S:2656-2676 | the same flush, by the low byte of the cr3 it finds |
| Arrival.GateArrives | kkm/kkm_guest_exit.S:2775-2799 | a gate, with or without a hardware error code, leads to one trap stack with no register lost |
| Arrival.SyscallArrives | kkm/kkm_guest_exit.S:2807-2846 | SYSCALL leads to the same trap stack at the cost of rcx, r11 and the TSS's sp2 |
| Arrival.AllArrive | kkm/kkm_guest_exit.S:2601-2613 | both, with the kernel's GS base back in every case |
| CHalves.AfterSaveHost | kkm/kkm_kontext.c:351-398 | the host's cr3, cr4, segments, bases, LSTAR and extended state are kept, cr4 in the area as well, and the interrupt number is -1; nothing else of it changes |
| Layout.SaveByWords | kkm/kkm_kontext.h:106-128 | what is put into the area before the switch, by byte offsets |
| Flags.FlagsAsPromised | kkm/kkm_kontext.c:507-530 | IF and RF are set, IOPL is 0, TF is set exactly when single-stepping is enabled, and every other flag is the monitor's |
| CHalves.AfterStartPayload | kkm/kkm_kontext.c:472-572 | the payload's bases, flags, entry point, trap stack and IDT are in place; the host's TSS stacks are kept in the area |
| Layout.StartByWords | kkm/kkm_kontext.h:106-128 | which words of the area become bases, IDT, flags and stack, and which keep the host's stacks |
| HostReturn.AfterSwitchToGk | kkm/kkm_guest_entry.S:35-64 | the callee-saved registers and rsp are kept, and the guest stack is in use |
| HostReturn.AfterHostKernel | kkm/kkm_kontext.c:577-632 | every kept register is back, in an order in which selector loads do not undo base writes; rip and rflags come from the trap |
| Layout.BackByWords | kkm/kkm_kontext.h:106-128 | which words become the host's stacks and IDT, and where the trap's rip and rflags go |
| HostReturn.AfterSwitchToHk | kkm/kkm_guest_entry.S:66-123 | native cr3 and stack, callee-saved registers and the return address from the frame rsi points at |
| Flushes.ReturnFlushes | kkm/kkm_guest_entry.S:95-116 | the same flush, by the low byte of the native cr3 |
| WorldSwitch.HostRestored | kkm/kkm_kontext.c:351-417 | whatever the payload does, one pass returns with cr0, cr3, cr4, cr8, LSTAR, FS/GS/kernel-GS bases, ds/es/fs/gs, IDT, sp0-sp2, extended state, callee-saved registers, rsp and return address as before |
| WorldSwitch.PayloadIsGivenItsContext | kkm/kkm_kontext.c:472-572 | what the payload starts with is what the area held when the pass began, rflags adjusted bit by bit |
| Layout.PassByWords | kkm/kkm_offsets.h:35-69 | a pass by byte offsets: what the payload starts with |
| WorldSwitch.ContextIsTaken | kkm/kkm_guest_exit.S:2603-2768 | what the area holds at the end is what the payload had when it trapped, rip, rflags and trap frame included |
| Layout.PassTakesWords | kkm/kkm_offsets.h:35-69 | and what its trap leaves, for each kind of cause |
| WorldSwitch.RegisterRoundTrip | kkm/kkm_kontext.h:103-178 | an immediate trap puts all 16 registers and rip back; SYSCALL all but rcx and r11; so no push overwrites a saved field |
| WorldSwitch.FlagsRoundTrip | kkm/kkm_kontext.c:507-587 | if the payload leaves its flags alone, the area's differ from the monitor's in the adjusted bits only |
| Visits.PassIsVisit | kkm/kkm_kontext.c:351-421 | one pass through the machine is one visit of the run loop: the payload starts with the registers, gs base and extended state the loop says, and afterwards the area holds the state and the trap its handlers are given |
| Layout.AreaFields | kkm/kkm_ioctl.h:99-121 | each field the run loop reads is the word of the area at its offset |
| Layout.CpuFields | kkm/kkm_ioctl.h:99-121 | and the processor's register of its name |
| Visits.ChainIsRun | kkm/kkm_kontext.c:304-462 | over any chain of passes, each from the state the handlers left, every entry in the run loop's log is how a pass starts the payload |
| DebugRegisters.DebugUnit.Pass | kkm/kkm_kontext.c:387-404 | over a pass, which debug registers the payload runs under, and when the host gets exactly its own back |
| DebugRegisters.KeptExactly | kkm/kkm_kontext.c:634-644 | which bits of register 6 are kept, and when nothing is lost |
| WorldSwitch.ExitUsesGuestKernelTables | kkm/kkm_guest_exit.S:2656-2684 | the C code after the exit code runs on the guest kernel's table of the pair, with the area in rdi |
| WorldSwitch.EnterPayload | kkm/kkm_guest_entry.S:145-272 | the entry program run in place on a processor |
| WorldSwitch.LeavePayload | kkm/kkm_guest_exit.S:2615-2768 | the exit program run in place on a processor |
| Anchors.Cr3FindsGuestKernel | kkm/kkm_kontainer.c:46-81 | clearing bit 12 of the payload's cr3 gives the guest kernel's frame if and only if the allocator's check accepts the pair |
| Anchors.RspFindsArea | kkm/kkm_guest_exit.S:2678-2684 | masking any stack pointer inside the 8192-byte area gives its start |
| Relocation.Patch | kkm/kkm_idt.c:221-285 | one instruction and its nop are rewritten in place |
| Relocation.RewriteKeepsMeaning | kkm/kkm_idt.c:221-285 | old and new bytes decode to the same access; the new one reaches the same address if and only if that address sign-extends from 32 bits; it is one byte longer, the nop's |
| Relocation.RewriteIsLocal | kkm/kkm_idt.c:221-285 | no other byte of the page changes |
| Lifetime.Kontainer.constructor | kkm/kkm_main.c:688-742 | a new kontainer has one reference and owns its table pages |
| Lifetime.Kontainer.AddExecutionKontext | kkm/kkm_main.c:448-538 | when allocations succeed: the error cases exactly; otherwise the descriptor, and the first free slot, found in bounds because the count is below the number of slots |
| FailedAdds.CountsFollowSurplus | kkm/kkm_main.c:494-530 | over any run with failing adds, both counts differ from what is open by counted adds without a descriptor less uncounted ones with one |
| FailedAdds.GoesWithTheLastExactly | kkm/kkm_main.c:138-173 | the kontainer goes exactly with its last descriptor, from here on, if and only if that difference is 0 |
| FailedAdds.GoneTooEarly | kkm/kkm_main.c:514-524 | the shortest run in which it goes too early |
| FailedAdds.SlotsFollowCount | kkm/kkm_main.c:466-530 | while adds are possible, the count is short of the slots in use by the adds that got no pages, over any run |
| FailedAdds.StaysInTableExactly | kkm/kkm_main.c:466-489 | from any reachable state, with adds still possible, the search for a slot always ends in the table if and only if every admitted add got its pages |
| FailedAdds.SearchLeavesTable | kkm/kkm_main.c:466-489 | a run after which it does not |
| Lifetime.Kontainer.BeginRelease | kkm/kkm_main.c:145-164 | a kontext's own pages are freed once, and its slot is free before it is counted down |
| Lifetime.Kontainer.CountDown | kkm/kkm_main.c:166-168 | the count, under the lock |
| Lifetime.Kontainer.EndRelease | kkm/kkm_main.c:128-173 | destruction exactly when the last descriptor is gone, and then no page is left |
| Lifetime.Kontainer.CloseKontainer | kkm/kkm_main.c:638-645 | the same when the kontainer's descriptor is the last |
| Lifetime.Kontainer.DestroyApp | kkm/kkm_main.c:114-126 | every kontext object and table page is freed once, and nothing else is left |
| Lifetime.Kontainer.FreeObject | kkm/kkm_main.c:118-123 | one object freed, and the ledger still balances |
| Lifetime.FillBalances | kkm/kkm_main.c:500-528 | pages given to a slot have that slot as their one owner |
| Lifetime.DrainBalances | kkm/kkm_main.c:145-164 | pages taken from a slot leave the rest with one owner each |
| Lifetime.OnlyOwnIsLeft | kkm/kkm_kontainer.c:177-189 | with all slots empty the kontainer's own pages are all that is left to free |

## Left out

- WorldSwitch.HostRestored: cr2 and rflags are not claimed; the debug registers, which no other part touches, are in DebugRegisters; the host's IDT is assumed to be the one recorded when the module was loaded; each descriptor table register is one value.
- WorldSwitch.RegisterRoundTrip: rflags is left to WorldSwitch.FlagsRoundTrip, since the code sets some of its bits.
- CHalves.AfterSaveHost: the debug registers are in DebugRegisters.
- HostReturn.AfterHostKernel: the debug registers are in DebugRegisters.
- Flushes.EntryFlushes: for a cr3 of 64 bits; that writing cr4 with bit 7 changed empties the TLB is the processor's part.
- Arrival.GateArrives: one parametric stub stands for the 256; vectors 21 and 29 and traps that arrive in kernel mode are not modelled.
- Arrival.AllArrive: SYSENTER, whose registers kkm leaves as the native kernel set them, is not among the causes, so what it does to a pass is not covered.
- Machine.Processor.Execute: registers and words hold unbounded numbers, and words at different addresses are separate; every access of the entry and exit code is 8-byte aligned and its address arithmetic does not wrap.
- Translation.SmallWalk: large pages on kkm's own walk of the monitor's tables, which the code does not check for.
- Translation.PrivatePageContract: the private slot appears in the guest only once a sync found a window entry, as in the code; the lemma says what happens before.
- MmuRuns.InvAlways: runs in which every CPU's guest area misses the tables that lead to others, since otherwise it fails; native page-table pages are not recycled into kkm's own while the kontainer lives, the 5-level entries kkm dereferences are present, a monitor top-level entry is empty or names a table, and frames fit 48 bits.
- TlbIsolation.PayloadsAreIsolated: the id counter does not wrap around at 2^64; every CPU's last id is invalid from the registration of the device on, although kkm_idt_init sets it a little later; freshness of translations after the monitor changes its own mappings is not claimed.
- Relocation.RewriteKeepsMeaning: only the three instruction forms of the stub are decoded.
- RunLoopProofs.PendingStatesExclude: SET_SAVE_INFO replays results of GET_SAVE_INFO; invented ones can set both flags.
- RunLoopProofs.SyscallFrameUndoneOnce: REUSE between call and response drops the call, so it is not among the calls considered.
- RunLoopProofs.PayloadFindsLatestXstate: the contents of xsave areas are opaque, and their conversion and checksum on GET and SET are not modelled.
- MemSlots.SlotTable.SetMemory: the memory behind the table is one more value of the array, not the fields that lie there; no claim that slots do not overlap, since the code does not decide it.
- Lifetime.Kontainer.AddExecutionKontext: allocations and descriptor creation succeed (FailedAdds has the counts when they do not, without the pages); the call is atomic under its lock.
- PageFaults.DoneMeansResolved: for addresses from the top window's end on, only canonical ones, which are all the hardware reports.
- Kontexts.Kontext.HandleHypercall: direction, size, count and offset in the exit record, which are constants; dr6 and dr7 of a debug exit.
- User copies, anonymous descriptors, mmap and fault hooks, printk, statistics and module parameters: I/O; copies appear as outcomes.
- Gate descriptors of the IDT, NMI and paravirtual platform variants, kkm/kkm_trace.c, the installer and the test program: easy, repetitive or platform plumbing.
