# Sahne Karnal: a Dafny model of the architecture layer

Sahne Karnal is a small multi-architecture kernel written in Rust. It targets
amd64, armv9, rv64i, loongarch64, sparcv9, powerpc64, mips64 and openrisc64.
This project models the Rust code that sits under the kernel's generic
parts, and proves properties of that model. It covers:

- **IPC.** The fixed-capacity message ring `IpcQueue`: eight slots, so at most seven messages, delivered first in, first out.
- **Task stacks.** The task-stack allocator of `src/memory.rs`: a table of 32 allocation flags and the arithmetic that places each stack.
- **Small utilities.** The checked add and tick conversion of `src/platformgeneric.rs` and the bounds-checked slicing of the initial RAM disk.
- **Hardware decoders.** The memory-controller and battery drivers under `src/memory/` and `src/powerbattery.rs`. They decode raw register bytes into types and configurations, report `Unknown` as an error, and write power-control registers.
- **Page tables.** For each architecture: how entries are encoded, how a virtual address splits into table indices, the walk that creates missing intermediate tables, and the boot loops that identity-map memory. On mips64 and openrisc64 the loop fills a 64-entry TLB instead. Physical memory is a map from table address to 512 entries (`PageTable`), and the tables are proved to stay a tree, so one mapping never disturbs another.
- **Exceptions and traps.** Cause decoding and its inverse, the classification each handler makes, which traps return, and how far the handler moves the saved program counter. Also the amd64 interrupt descriptor table and the armv9 vector table.
- **Interrupt controllers.** The 8259A pair, the GIC distributor, the PLIC and CLINT, the loongarch64, openrisc64 and sparcv9 controllers, and the mips64 Status and Cause bits. Each controller register is a field. Every operation is stated as its effect on those fields.
- **Task contexts.** The task context of each architecture. `TaskContext::new`, and the save and load halves of `switch_context`, stated as stores and loads on the 8-byte slots of the `repr(C)` layout.
- **Consoles.** The serial consoles of amd64, armv9 and sparcv9. Each has a one-shot UART initialisation, a polling `write_byte`, and a `write_str` that sends a line feed as CR LF (`Console`).
- **Device tree.** The device-tree state of each architecture (`Dtb`): an address and a fixed parsed configuration.

Device and system registers are fields or parameters. Every register access
is an entry in an access trace. Machine words are `bv64`/`bv32`/`bv8`, or
integers with the wrap-around written out.

## Model

| member | source | states |
|---|---|---|
| Bits.Bit32 | src/arch/loongarch64/interrupt.rs:87 | `1 << line` on a u32 has exactly one bit set |
| Bits.Bit64 | src/arch/sparcv9/interrupt.rs:87 | `1 << line` on a u64 has exactly one bit set |
| Bits.SetBits32 | src/arch/loongarch64/interrupt.rs:87 | OR-ing a mask in sets its bits and keeps every other bit |
| Bits.ClearBits32 | src/arch/loongarch64/interrupt.rs:95 | AND-NOT-ing a mask clears its bits and keeps every other bit |
| Bits.SetBits64 | src/arch/sparcv9/interrupt.rs:87 | OR-ing a mask into a u64 sets its bits and keeps every other bit |
| Bits.ClearBits64 | src/arch/sparcv9/interrupt.rs:79 | AND-NOT-ing a mask from a u64 clears its bits and keeps every other bit |
| Bits.SetClearLaws32 | src/arch/loongarch64/interrupt.rs:83-97 | setting and clearing a u32 mask are idempotent, and each undoes the other up to the mask's own bits |
| Bits.SetClearLaws64 | src/arch/sparcv9/interrupt.rs:75-89 | setting and clearing a u64 mask are idempotent, and each undoes the other up to the mask's own bits |
| Bits.LeadingZeros32 | src/arch/loongarch64/interrupt.rs:79 | `u32::leading_zeros`: 32 exactly for zero, otherwise `n` with the highest set bit at 31 - n |
| Bits.LeadingZeros64 | src/arch/sparcv9/interrupt.rs:71 | `u64::leading_zeros`: 64 exactly for zero, otherwise `n` with the highest set bit at 63 - n |
| PlatformGeneric.SafeAddUsize | src/platformgeneric.rs:53-55 | the sum is returned exactly when it fits in 64 bits, `None` otherwise |
| PlatformGeneric.SafeAddUsizeDetectsWrap | src/platformgeneric.rs:53-55 | `None` exactly when the wrapping sum would fall below an operand, i.e. on overflow |
| PlatformGeneric.SafeAddUsizeCommutes | src/platformgeneric.rs:53-55 | checked addition is commutative, including its overflow verdict |
| PlatformGeneric.TicksToMs | src/platformgeneric.rs:64-67 | the millisecond count never exceeds the tick count |
| PlatformGeneric.TicksToMsIsIdentity | src/platformgeneric.rs:34-67 | with `TIMER_TICK_HZ = 1000` the divisor is 1 and the conversion is the identity |
| PlatformGeneric.TicksToMsMonotone | src/platformgeneric.rs:64-67 | the conversion is monotone non-decreasing |
| InitRd.InitRd.GetData | initrd.rs:34-36 | the slice returned is the image, byte for byte |
| InitRd.InitRd.GetSize | initrd.rs:39-41 | the size is the length of the data `get_data` returns |
| InitRd.InitRd.ReadSlice | initrd.rs:53-60 | a slice is returned exactly when `offset + length` lies within the image (an offset past the end or an overflowing end gives `None`), and it holds the `length` bytes from `offset` |
| InitRd.ReadSliceExtremes | initrd.rs:53-60 | reading from 0 for the whole size gives the whole image; reading 0 bytes at the end gives the empty slice |
| InitRd.ReadSliceSplit | initrd.rs:53-60 | two adjacent in-bounds reads concatenate to the single read spanning both |
| Ipc.Next | src/ipc.rs:102 | the slot after `i` stays below 8 and is 0 exactly after the last slot (the `% QUEUE_DEPTH` wrap) |
| Ipc.Pending | src/ipc.rs:41-48 | the messages between `head` and `tail` number fewer than 8, and none exactly when the indices are equal |
| Ipc.PendingPush | src/ipc.rs:93-103 | storing at `tail` and advancing it appends the message to the waiting messages when the ring is not full |
| Ipc.PendingPop | src/ipc.rs:119-129 | the message at `head` is the oldest waiting one, and advancing `head` removes exactly it |
| Ipc.SendThenReceiveOnEmpty | src/ipc.rs:85-132 | on an empty ring, a sent message is the one waiting message, and receiving it empties the ring again |
| Ipc.IpcQueue.constructor | src/ipc.rs:56-65 | every slot holds the all-zero default message, head and tail are 0, and nothing is waiting |
| Ipc.IpcQueue.IsFull | src/ipc.rs:68-71 | full exactly when 7 messages are waiting |
| Ipc.IpcQueue.IsEmpty | src/ipc.rs:74-76 | empty exactly when no message is waiting |
| Ipc.IpcQueue.Send | src/ipc.rs:85-106 | a full queue returns the message as `Err` and changes nothing; otherwise the message is stored at `tail`, `tail` advances, the result is `Ok` and the message is appended to the waiting ones |
| Ipc.IpcQueue.Receive | src/ipc.rs:112-132 | an empty queue returns `None` and changes nothing; otherwise the oldest waiting message is returned, `head` advances and exactly that message leaves the queue |
| Memory.GetStackBaseAddress | src/memory.rs:70-79 | `None` for an id of 32 or more; otherwise `0xC100_0000 + id * 8192` |
| Memory.StackTop | src/memory.rs:97-102 | the address `allocate_stack` returns is the base of that id's stack plus 8 KiB |
| Memory.StacksDisjoint | src/memory.rs:77-102 | distinct ids own disjoint stacks `[base, base + 8192)` |
| Memory.StacksBetweenKernelTextAndMmio | src/memory.rs:39-78 | no stack starts below the last kernel-text byte, and every stack ends below the MMIO window |
| Memory.KernelTextMeetsStackZero | src/memory.rs:39-43 | the inclusive kernel-text range ends at the first byte of task 0's stack; a stack shares a byte with the kernel text exactly when it is task 0's |
| Memory.AllocateOutcomes | src/memory.rs:82-103 | id of 32 or more: `InvalidArgument`, flags unchanged; flag already set: `ResourceBusy`, flags unchanged; otherwise the stack top and only that id's flag set |
| Memory.DeallocateOutcomes | src/memory.rs:106-124 | id of 32 or more: `InvalidArgument`; flag clear: `NotFound`; both change nothing; otherwise `Ok` with only that id's flag cleared |
| Memory.ReallocateAfterDeallocate | src/memory.rs:89-118 | after a successful deallocation the same id allocates again, at the same stack top, restoring the flag table |
| Memory.AllocateTwiceIsBusy | src/memory.rs:89-94 | a second allocation of the same id without deallocation fails with `ResourceBusy` |
| Memory.TaskStackAllocator.constructor | src/memory.rs:64-66 | all 32 flags start clear |
| Memory.TaskStackAllocator.AllocateStack | src/memory.rs:82-103 | the result and the new flag table are those of `Allocate` on the old table |
| Memory.TaskStackAllocator.DeallocateStack | src/memory.rs:106-124 | the result and the new flag table are those of `Deallocate` on the old table |
| MemoryDdr.DdrTypeCode | src/memory/memoryddr.rs:72-78 | each DDR generation has its code in 0x01..0x06 |
| MemoryDdr.DecodeDdrType | src/memory/memoryddr.rs:72-80 | `Unknown` exactly for bytes outside 0x01..0x06 |
| MemoryDdr.DdrTypeCodeRoundTrip | src/memory/memoryddr.rs:72-80 | byte n in 1..6 decodes to DDRn and DDRn decodes from exactly that byte |
| MemoryDdr.DdrMemoryManager.DetectDdrType | src/memory/memoryddr.rs:66-81 | `Unknown` exactly when the type register is outside 0x01..0x06; otherwise the generation whose code the register holds |
| MemoryDdr.DdrMemoryManager.ReadTimingParameters | src/memory/memoryddr.rs:84-108 | `Err(PlatformSpecificError(0x01))` exactly for an unknown type; otherwise the type, the raw timing byte as CAS latency, 64 ms refresh and 512 MiB |
| MemoryDdr.DdrMemoryManager.SetLowPowerMode | src/memory/memoryddr.rs:111-117 | writes 0x01 to the power register, leaves the other registers alone and returns `Ok` |
| MemoryDdr.DdrMemoryManager.SetNormalMode | src/memory/memoryddr.rs:120-126 | writes 0x00 to the power register, leaves the other registers alone and returns `Ok` |
| MemoryGddr.GddrTypeCode | src/memory/memorygddr.rs:77-84 | each GDDR generation has its code in 0x1..0x8 |
| MemoryGddr.DecodeGddrType | src/memory/memorygddr.rs:76-86 | `Unknown` exactly for bytes outside 0x1..0x8 |
| MemoryGddr.GddrTypeCodeRoundTrip | src/memory/memorygddr.rs:76-86 | 0x1..0x8 decode to GDDR1, 2, 3, 4, 5, 5X, 6, 7 and each generation decodes from exactly its code |
| MemoryGddr.GddrMemoryManager.DetectGddrType | src/memory/memorygddr.rs:70-87 | `Unknown` exactly when the type register is outside 0x1..0x8; otherwise the generation whose code it holds |
| MemoryGddr.GddrMemoryManager.ReadTimingParameters | src/memory/memorygddr.rs:90-113 | `Err(PlatformSpecificError(0x02))` exactly for an unknown type; otherwise bandwidth ten times the raw byte (at most 2550, within u32), 1000 MHz and 256 MiB |
| MemoryGddr.GddrMemoryManager.ResetMemoryController | src/memory/memorygddr.rs:116-123 | writes 0x01 to the reset register, leaves the others alone and returns `Ok` |
| MemoryGddr.GddrMemoryManager.MarkForAccelerator | src/memory/memorygddr.rs:129-138 | always `Ok`, and changes no state |
| MemoryHbm.HbmTypeCode | src/memory/memoryhbm.rs:73-77 | each HBM generation has its code in 0x1..0x5 |
| MemoryHbm.DecodeHbmType | src/memory/memoryhbm.rs:72-79 | `Unknown` exactly for bytes outside 0x1..0x5 |
| MemoryHbm.HbmTypeCodeRoundTrip | src/memory/memoryhbm.rs:72-79 | 0x1..0x5 decode to HBM1, HBM2, HBM2E, HBM3, HBM3E and each generation decodes from exactly its code |
| MemoryHbm.StackAccessCommand | src/memory/memoryhbm.rs:113 | the command always has bit 7 set, and its low 7 bits are those of the stack id |
| MemoryHbm.HbmMemoryManager.DetectHbmType | src/memory/memoryhbm.rs:66-80 | `Unknown` exactly when the type register is outside 0x1..0x5; otherwise the generation whose code it holds |
| MemoryHbm.HbmMemoryManager.ReadConfiguration | src/memory/memoryhbm.rs:83-108 | `Err(PlatformSpecificError(0x03))` exactly for an unknown type; otherwise peak bandwidth 50 times the raw byte (at most 12750), 4 stacks of 2 GiB, 50 ns |
| MemoryHbm.HbmMemoryManager.EnableStackAccess | src/memory/memoryhbm.rs:111-121 | writes `0x80 \| id` to the stack-control register only and returns `Ok` |
| MemoryHbm.HbmMemoryManager.SetUltraLowPowerMode | src/memory/memoryhbm.rs:124-131 | writes 0x01 to the configuration register, not the stack-control one, returns `Ok`, and a later configuration read of a known part reports 50 GB/s |
| MemoryLpddr.LpddrTypeCode | src/memory/memorylpddr.rs:72-78 | each LPDDR generation has its code in 0x1..0x7 |
| MemoryLpddr.DecodeLpddrType | src/memory/memorylpddr.rs:71-80 | `Unknown` exactly for bytes outside 0x1..0x7 |
| MemoryLpddr.LpddrTypeCodeRoundTrip | src/memory/memorylpddr.rs:71-80 | 0x1..0x7 decode to LPDDR1, 2, 3, 4, 4X, 5, 6 and each generation decodes from exactly its code |
| MemoryLpddr.LpddrMemoryManager.DetectLpddrType | src/memory/memorylpddr.rs:65-81 | `Unknown` exactly when the type register is outside 0x1..0x7; otherwise the generation whose code it holds |
| MemoryLpddr.LpddrMemoryManager.ReadConfiguration | src/memory/memorylpddr.rs:84-107 | `Err(PlatformSpecificError(0x04))` exactly for an unknown type; otherwise idle power ten times the raw byte (at most 2550, within u16), 200 ns wake-up and 1 GiB |
| MemoryLpddr.LpddrMemoryManager.SetDeepSleepMode | src/memory/memorylpddr.rs:110-117 | writes 0x03 to the power register, leaves the others alone and returns `Ok` |
| MemoryLpddr.LpddrMemoryManager.SetPowerDownMode | src/memory/memorylpddr.rs:120-126 | writes 0x01 to the power register, leaves the others alone and returns `Ok` |
| PowerBattery.DecodeBatteryLevel | src/powerbattery.rs:84-88 | a reading is accepted, unchanged, exactly when it is at most 100 |
| PowerBattery.DecodePowerSource | src/powerbattery.rs:97-102 | the source is the AC adapter exactly for byte 0x01; 0x02 and every other byte mean battery |
| PowerBattery.EncodePowerLevel | src/powerbattery.rs:107-111 | every level is written as one of the control bytes 0x01..0x03 |
| PowerBattery.DecodePowerLevel | src/powerbattery.rs:128-133 | a byte other than 0x01..0x03 reads as `Normal` |
| PowerBattery.PowerLevelRoundTrip | src/powerbattery.rs:107-133 | reading back the byte written for a level gives that level, for all three levels |
| PowerBattery.PowerLevelCodesAreCanonical | src/powerbattery.rs:107-133 | each of 0x01..0x03 is the byte written for the level it reads as |
| PowerBattery.PowerBatteryManager.GetBatteryLevel | src/powerbattery.rs:76-89 | the battery register is returned exactly when it reads at most 100 |
| PowerBattery.PowerBatteryManager.GetPowerSource | src/powerbattery.rs:92-103 | AC adapter exactly when the source register reads 0x01 |
| PowerBattery.PowerBatteryManager.SetPowerLevel | src/powerbattery.rs:106-120 | always `Ok`; the control register holds the level's byte, the other registers are unchanged, and reading the level back gives the level set |
| PowerBattery.PowerBatteryManager.GetCurrentPowerLevel | src/powerbattery.rs:123-134 | an unrecognised control byte reads as `Normal`; a recognised one is the encoding of the level returned |
| PageTable.ZeroTable | src/arch/amd64/mmu.rs:76-80 | a cleared table has 512 entries, all zero |
| PageTable.PathOfDescend | src/arch/amd64/mmu.rs:133-174 | in a tree of tables, the table a walk reaches is the one whose recorded path is the walk's index path |
| PageTable.DescendAfterLeafWrite | src/arch/amd64/mmu.rs:177-178 | writing a last-level slot leaves every walk through the intermediate levels unchanged |
| PageTable.LeafAfterLeafWrite | src/arch/amd64/mmu.rs:177-178 | writing `e` at the slot an index tuple selects makes that tuple's leaf `e` and changes no other leaf |
| PageTable.LeafWritePreservesTree | src/arch/amd64/mmu.rs:177-178 | a last-level write keeps the tables a tree with the same recorded paths |
| PageTable.StepAfterHook | src/arch/amd64/mmu.rs:142-145 | after a fresh table is hooked into an empty slot, one walk step changes only at that slot, and the new table points nowhere |
| PageTable.DescendAfterHook | src/arch/amd64/mmu.rs:142-145 | hooking makes the walk of the parent's path plus the slot reach the new table and changes no other walk |
| PageTable.LeafAfterHook | src/arch/amd64/mmu.rs:142-145 | hooking a fresh table changes the leaf of no index tuple |
| PageTable.HookKeepsPaths | src/arch/amd64/mmu.rs:142-145 | after hooking, every recorded table, the new one included, is reached by its own path |
| PageTable.HookKeepsLinks | src/arch/amd64/mmu.rs:142-145 | after hooking, every table pointer in an intermediate table leads to the table recorded one level down |
| PageTable.LeavesAfterHook | src/arch/amd64/mmu.rs:142-145 | hooking a fresh table changes no leaf, for all index tuples at once |
| PageTable.HookPreservesTree | src/arch/amd64/mmu.rs:142-145 | hooking a fresh table keeps the tables a tree, with the new table's path recorded |
| PageTable.PhysicalMemory.constructor | src/arch/amd64/mmu.rs:194-198 | memory starts with only the static root table, all zero, and the given free frames |
| PageTable.PhysicalMemory.AllocPageTable | src/arch/amd64/mmu.rs:108-119 | returns the first free frame, not yet in use, now holding a zeroed table; nothing else changes |
| PageTable.PhysicalMemory.ZeroTableAt | src/arch/amd64/mmu.rs:76-80 | every entry of the table becomes zero and nothing else changes |
| PageTable.PhysicalMemory.StartTree | src/arch/amd64/mmu.rs:196-198 | a zeroed root starts a tree in which every walk yields 0 |
| PageTable.PhysicalMemory.GetOrCreate | src/arch/amd64/mmu.rs:138-146 | the child is the table the entry points to when it is present, otherwise the next free frame; its path extends the parent's by the slot; no leaf changes and the tree is kept |
| PageTable.PhysicalMemory.HookNewTable | src/arch/amd64/mmu.rs:141-146 | a fresh zeroed table is allocated and a pointer to it stored in the slot; exactly that table and that slot change, and no leaf changes |
| PageTable.PhysicalMemory.LeafTable4 | src/arch/amd64/mmu.rs:133-174 | three get-or-create steps end at the last-level table whose path is the first three indices, using at most 3 frames and changing no leaf |
| PageTable.PhysicalMemory.LeafTable3 | src/arch/rv64i/mmu.rs:112-146 | two get-or-create steps end at the last-level table whose path is the first two indices, using at most 2 frames and changing no leaf |
| PageTable.PhysicalMemory.LeafTable2 | src/arch/powerpc64/mmu.rs:118-130 | one get-or-create step ends at the table whose path is the first index, using at most 1 frame and changing no leaf |
| PageTable.PhysicalMemory.SetLeaf | src/arch/amd64/mmu.rs:177-178 | the selected slot holds `e`, so the walk of `idx` yields `e`, every other leaf is unchanged and the tree is kept |
| PageTable.EmptyRootHasNoLeaves | src/arch/amd64/mmu.rs:196-198 | a root whose entries are all zero maps nothing: every walk yields 0 |
| PageTable.EmptyRootStopsWalks | src/arch/amd64/mmu.rs:196-198 | from an all-zero root, only the empty path reaches a table |
| MmuAmd64.ZeroEntryIsAbsent | src/arch/amd64/mmu.rs:48-61 | the zero entry is not present and points at address 0 |
| MmuAmd64.EntryRoundTrip | src/arch/amd64/mmu.rs:53-67 | for a page-aligned address below 2^52 and flags in bits 0..11 and 63, `new(a, f).addr() == a` (NO_EXEC is stripped) and the entry is present exactly when `f` has PRESENT |
| MmuAmd64.TableEntriesDecode | src/arch/amd64/mmu.rs:139-144 | an intermediate entry `addr \| PRESENT \| WRITABLE` is present and leads back to `addr` |
| MmuAmd64.GetIndices | src/arch/amd64/mmu.rs:93-103 | four indices, each below 512 |
| MmuAmd64.LowPageIndices | src/arch/amd64/mmu.rs:93-103 | below 16 MiB the PD and PT indices are the page number's high and low 9 bits |
| MmuAmd64.IndicesInjective | src/arch/amd64/mmu.rs:93-103 | distinct pages of the first 16 MiB select distinct index tuples |
| MmuAmd64.PageStep | src/arch/amd64/mmu.rs:209-213 | a page below the next loop address is the current page or an earlier one with a different index tuple |
| MmuAmd64.MapPage | src/arch/amd64/mmu.rs:127-179 | after the call the walk of the address's four indices yields `new(pa, flags)`, no other leaf changes, the tables stay a tree and at most 3 frames are used |
| MmuAmd64.IdentityMappedStep | src/arch/amd64/mmu.rs:209-213 | mapping the page at `addr` to itself without changing other leaves extends the identity-mapped prefix by one page |
| MmuAmd64.FreeForPage | src/arch/amd64/mmu.rs:209-213 | while pages remain, at least 3 free frames are left for the next mapping |
| MmuAmd64.BootProgressStep | src/arch/amd64/mmu.rs:209-213 | a mapping of page k with the properties `map_page` guarantees advances the loop state to page k + 1 |
| MmuAmd64.MapIdentityPage | src/arch/amd64/mmu.rs:210-212 | one iteration maps the page to itself and advances the loop state by one page |
| MmuAmd64.MapIdentityRegion | src/arch/amd64/mmu.rs:207-213 | the loop ends with all 4096 pages of the first 16 MiB identity-mapped, the tables a tree |
| MmuAmd64.SetupInitialPaging | src/arch/amd64/mmu.rs:189-217 | returns the PML4 address; every page-aligned address below 16 MiB then walks to `new(a, PRESENT \| WRITABLE \| NO_EXEC)` |
| MmuArmv9.TableRoundTrip | src/arch/armv9/mmu.rs:64-77 | a table descriptor `a \| 0b11` of a 4 KiB-aligned address below 2^48 is present and its next-level address (`entry & 0x0000_FFFF_FFFF_F000`) is `a` |
| MmuArmv9.PagesArePresent | src/arch/armv9/mmu.rs:64-86 | every `new_page(a, f)` has its two low bits set, so it counts as present |
| MmuArmv9.TablesDecode | src/arch/armv9/mmu.rs:146-150 | the walk reads back every table descriptor it creates |
| MmuArmv9.GetIndices | src/arch/armv9/mmu.rs:95-111 | four indices, each below 512 |
| MmuArmv9.KernelIndices | src/arch/armv9/mmu.rs:95-111 | every address `KERNEL_START_VADDR + a` of the 16 MiB window has indices 256 and 0 at the first two levels, and the page number split in two at the last two (also lines 209-212) |
| MmuArmv9.KernelIndicesInjective | src/arch/armv9/mmu.rs:95-111 | distinct pages of the window select distinct index tuples |
| MmuArmv9.PageStep | src/arch/armv9/mmu.rs:209-212 | a page below the next loop address is the current page or an earlier one with a different index tuple |
| MmuArmv9.MapPage | src/arch/armv9/mmu.rs:133-188 | after the call the walk of the address's four indices yields `new_page(pa, flags)`, no other leaf changes, the tables stay a tree and at most 3 frames are used |
| MmuArmv9.WindowMappedStep | src/arch/armv9/mmu.rs:209-212 | mapping one more page of the window without changing other leaves extends the mapped prefix by one page |
| MmuArmv9.FreeForPage | src/arch/armv9/mmu.rs:209-212 | while pages remain, at least 3 free frames are left for the next mapping |
| MmuArmv9.MapProgressStep | src/arch/armv9/mmu.rs:209-212 | a mapping of page k with the properties `map_page` guarantees advances the loop state to page k + 1 |
| MmuArmv9.MapWindowPage | src/arch/armv9/mmu.rs:211 | one iteration maps `KERNEL_START_VADDR + addr` to `addr` and advances the loop state by one page |
| MmuArmv9.MapWindow | src/arch/armv9/mmu.rs:202-212 | the loop ends with all 4096 pages of the window mapped with the kernel flags |
| MmuArmv9.ControlValues | src/arch/armv9/mmu.rs:222-239 | TCR has T0SZ = T1SZ = 16, TG0 = 0, TG1 = 2 and A1 = 1; MAIR has attribute 0 = 0xFF, attribute 1 = 0x04 and nothing else |
| MmuArmv9.EnableTranslation | src/arch/armv9/mmu.rs:248-253 | the SCTLR update sets bit 0 and keeps every other bit |
| MmuArmv9.EnableMmu | src/arch/armv9/mmu.rs:195-259 | every page `a` of the first 16 MiB is reached at `KERNEL_START_VADDR + a` with the kernel flags; TTBR1 gets the table address, MAIR and TCR their fixed values, SCTLR gains the M bit |
| MmuRv64i.TableIsPointer | src/arch/rv64i/mmu.rs:62-70 | `new_table(a)` is valid and has R, W and X clear, so it is a pointer to the next level |
| MmuRv64i.TableRoundTrip | src/arch/rv64i/mmu.rs:62-70 | for a 4 KiB-aligned address below 2^56, `(new_table(a) & PPN_MASK) << 2 == a` (also lines 31, 124) |
| MmuRv64i.TablesDecode | src/arch/rv64i/mmu.rs:123-130 | the walk reads back every table pointer it creates |
| MmuRv64i.GetIndices | src/arch/rv64i/mmu.rs:87-96 | three indices, each below 512 |
| MmuRv64i.LowPageIndices | src/arch/rv64i/mmu.rs:87-96 | below 16 MiB the second and third indices are the page number's high and low 9 bits |
| MmuRv64i.IndicesInjective | src/arch/rv64i/mmu.rs:87-96 | distinct pages of the first 16 MiB select distinct index tuples |
| MmuRv64i.PageStep | src/arch/rv64i/mmu.rs:197-202 | a page below the next loop address is the current page or an earlier one with a different index tuple |
| MmuRv64i.MapPage | src/arch/rv64i/mmu.rs:112-152 | after the call the walk of the address's three indices yields `new_page(pa, flags)`, no other leaf changes, the tables stay a tree and at most 2 frames are used |
| MmuRv64i.IdentityMappedStep | src/arch/rv64i/mmu.rs:197-202 | mapping the page at `addr` to itself without changing other leaves extends the identity-mapped prefix by one page |
| MmuRv64i.FreeForPage | src/arch/rv64i/mmu.rs:197-202 | while pages remain, at least 2 free frames are left for the next mapping |
| MmuRv64i.BootProgressStep | src/arch/rv64i/mmu.rs:197-202 | a mapping of page k with the properties `map_page` guarantees advances the loop state to page k + 1 |
| MmuRv64i.MapIdentityPage | src/arch/rv64i/mmu.rs:198-201 | one iteration maps the page to itself and advances the loop state by one page |
| MmuRv64i.MapIdentityRegion | src/arch/rv64i/mmu.rs:195-202 | the loop ends with all 4096 pages of the first 16 MiB identity-mapped |
| MmuRv64i.SetupInitialPaging | src/arch/rv64i/mmu.rs:174-206 | returns the root address; every page-aligned address below 16 MiB then walks to `new_page(a, R \| W \| X \| G \| A \| D)` |
| MmuRv64i.SatpValue | src/arch/rv64i/mmu.rs:212-223 | `satp` has MODE 8 in bits 60..63; for an aligned root below 2^56 the ASID field is 0 and the PPN field shifted back gives the root address |
| MmuLoongarch64.EntryRoundTrip | src/arch/loongarch64/mmu.rs:57-70 | for a page-aligned address and flags in bits 0..11, `addr(new(a, flags)) == a`, and the entry is valid exactly when the flags hold VALID |
| MmuLoongarch64.TablesDecode | src/arch/loongarch64/mmu.rs:129-136 | the walk reads back every table pointer `new(addr, VALID)` it creates |
| MmuLoongarch64.GetIndices | src/arch/loongarch64/mmu.rs:79-93 | four indices, each below 512 |
| MmuLoongarch64.LowPageIndices | src/arch/loongarch64/mmu.rs:79-93 | below 16 MiB the L3 and L4 indices are the page number's high and low 9 bits |
| MmuLoongarch64.IndicesInjective | src/arch/loongarch64/mmu.rs:79-93 | distinct pages of the first 16 MiB select distinct index tuples |
| MmuLoongarch64.PageStep | src/arch/loongarch64/mmu.rs:222-228 | a page below the next loop address is the current page or an earlier one with a different index tuple |
| MmuLoongarch64.MapPage | src/arch/loongarch64/mmu.rs:115-172 | after the call the walk of the address's four indices yields `new(pa, flags \| VALID)`, no other leaf changes, the tables stay a tree and at most 3 frames are used |
| MmuLoongarch64.IdentityMappedStep | src/arch/loongarch64/mmu.rs:222-228 | mapping the page at `addr` to itself without changing other leaves extends the identity-mapped prefix by one page |
| MmuLoongarch64.FreeForPage | src/arch/loongarch64/mmu.rs:222-228 | while pages remain, at least 3 free frames are left for the next mapping |
| MmuLoongarch64.BootProgressStep | src/arch/loongarch64/mmu.rs:222-228 | a mapping of page k with the properties `map_page` guarantees advances the loop state to page k + 1 |
| MmuLoongarch64.MapIdentityPage | src/arch/loongarch64/mmu.rs:223-227 | one iteration maps the page to itself and advances the loop state by one page |
| MmuLoongarch64.MapIdentityRegion | src/arch/loongarch64/mmu.rs:220-228 | the loop ends with all 4096 pages of the first 16 MiB identity-mapped |
| MmuLoongarch64.SetupInitialPaging | src/arch/loongarch64/mmu.rs:198-232 | returns the root table's address; every page-aligned address below 16 MiB then walks to `new(a, READ \| WRITE \| EXEC \| DIRTY \| GLOBAL \| VALID)` |
| MmuLoongarch64.EnablePaging | src/arch/loongarch64/mmu.rs:238-261 | CRMD is written with the PG bit (bit 2) set and every other bit as read; the table base CSR receives the root address |
| MmuSparcv9.TableRoundTrip | src/arch/sparcv9/mmu.rs:137-142 | an 8 KiB-aligned table address stored with the TABLE tag is seen as a table and recovered by `PFN_MASK` |
| MmuSparcv9.PagesAreNotTables | src/arch/sparcv9/mmu.rs:137-166 | a leaf `pfn \| flags \| PAGE_8K` never passes the TABLE type test, whatever the flags |
| MmuSparcv9.TablesDecode | src/arch/sparcv9/mmu.rs:137-157 | the walk reads back every table pointer it creates |
| MmuSparcv9.GetIndicesAsWritten | src/arch/sparcv9/mmu.rs:118-122 | as written: three indices below 512 taken from bits 39..47, 30..38 and 21..29 |
| MmuSparcv9.GetIndices | src/arch/sparcv9/mmu.rs:106-116 | as the comments intend for 8 KiB pages: three indices below 512 from bits 31..39, 22..30 and 13..21 |
| MmuSparcv9.AsWrittenIndicesCollide | src/arch/sparcv9/mmu.rs:118-122 | pages 0 and 8192 get the same index tuple |
| MmuSparcv9.AsWrittenIdentityMapImpossible | src/arch/sparcv9/mmu.rs:118-122 | no table state holds both the identity entries for page 0 and page 8192 under the as-written indices (also lines 243-247) |
| MmuSparcv9.MapPageAsWritten | src/arch/sparcv9/mmu.rs:126-170 | `map_page` with the as-written indices: their leaf becomes `pfn \| flags \| PAGE_8K`, no other leaf changes, the tables stay a tree, at most 2 frames are used |
| MmuSparcv9.MapPage | src/arch/sparcv9/mmu.rs:126-170 | the same with the 8 KiB index split: the address's leaf becomes `pfn \| flags \| PAGE_8K` and no other leaf changes |
| MmuSparcv9.LowPageIndices | src/arch/sparcv9/mmu.rs:106-116 | below 16 MiB the L2 and L3 indices of the 8 KiB split are the page number's high and low 9 bits |
| MmuSparcv9.IndicesInjective | src/arch/sparcv9/mmu.rs:106-116 | with the 8 KiB split, distinct pages of the first 16 MiB select distinct leaf slots |
| MmuSparcv9.PageStep | src/arch/sparcv9/mmu.rs:243-248 | a page below the next loop address is the current page or an earlier one with a different index tuple |
| MmuSparcv9.IdentityMappedStep | src/arch/sparcv9/mmu.rs:243-248 | mapping the page at `addr` to itself without changing other leaves extends the identity-mapped prefix by one page |
| MmuSparcv9.FreeForPage | src/arch/sparcv9/mmu.rs:243-248 | while pages remain, at least 2 free frames are left for the next mapping |
| MmuSparcv9.BootProgressStep | src/arch/sparcv9/mmu.rs:243-248 | a mapping of page k with the properties `map_page` guarantees advances the loop state to page k + 1 |
| MmuSparcv9.MapIdentityPage | src/arch/sparcv9/mmu.rs:244-247 | with the corrected `map_page`: one iteration maps the 8 KiB page to itself and advances the loop state by one page |
| MmuSparcv9.MapIdentityRegion | src/arch/sparcv9/mmu.rs:235-248 | with the corrected `map_page`: the loop ends with all 2048 pages of the first 16 MiB identity-mapped |
| MmuSparcv9.TsbBase | src/arch/sparcv9/mmu.rs:200-206 | the TSB base value carries the 256 KiB size field and, for an 8 KiB-aligned root, the root address in its upper bits |
| MmuSparcv9.EnableMmuControl | src/arch/sparcv9/mmu.rs:212-219 | the control register is written with bit 0 set and every other bit as read |
| MmuSparcv9.InitMmu | src/arch/sparcv9/mmu.rs:227-256 | with the corrected `map_page`: every 8 KiB page below 16 MiB then walks to `pfn \| PRIVILEGED \| WRITE_ENA \| EXEC_ENA \| CACHEABLE \| ACCESSED \| MODIFIED \| PAGE_8K`, and the two register writes are the TSB base and the enabled control value |
| MmuPowerpc64.TableRoundTrip | src/arch/powerpc64/mmu.rs:61-69 | `new_table(a)` for a 4 KiB-aligned address is valid, carries TABLE, and `ADDR_MASK` recovers the address (also lines 123-124) |
| MmuPowerpc64.PagesAreValid | src/arch/powerpc64/mmu.rs:72-74 | `new_page` always sets VALID |
| MmuPowerpc64.TablesDecode | src/arch/powerpc64/mmu.rs:122-130 | the walk reads back every table pointer it creates |
| MmuPowerpc64.GetIndices | src/arch/powerpc64/mmu.rs:83-96 | four indices below 512 from bits 39..47, 30..38, 21..29 and 12..20 |
| MmuPowerpc64.SlotAsWritten | src/arch/powerpc64/mmu.rs:118-146 | the slot `map_page` as written stores into is the root index followed by the fourth-level index |
| MmuPowerpc64.MapPageAsWritten | src/arch/powerpc64/mmu.rs:112-149 | as written: the leaf entry lands in the second-level table at the fourth-level index; nothing else changes and at most 1 frame is used |
| MmuPowerpc64.AsWrittenSlotsCollide | src/arch/powerpc64/mmu.rs:143-146 | as written, pages 0 and 2 MiB use the same slot |
| MmuPowerpc64.AsWrittenIdentityMapImpossible | src/arch/powerpc64/mmu.rs:229-234 | as written, no table state holds the identity entries of both page 0 and page 2 MiB, so the boot loop cannot leave an identity map (also lines 143-146) |
| MmuPowerpc64.MapPage | src/arch/powerpc64/mmu.rs:112-149 | with all four levels walked: the address's leaf becomes `new_page(pa, flags)`, no other leaf changes, the tables stay a tree and at most 3 frames are used |
| MmuPowerpc64.LowPageIndices | src/arch/powerpc64/mmu.rs:83-96 | below 16 MiB the L3 and L4 indices are the page number's high and low 9 bits |
| MmuPowerpc64.IndicesInjective | src/arch/powerpc64/mmu.rs:83-96 | distinct pages of the first 16 MiB select distinct index tuples |
| MmuPowerpc64.PageStep | src/arch/powerpc64/mmu.rs:229-234 | a page below the next loop address is the current page or an earlier one with a different index tuple |
| MmuPowerpc64.IdentityMappedStep | src/arch/powerpc64/mmu.rs:229-234 | mapping the page at `addr` to itself without changing other leaves extends the identity-mapped prefix by one page |
| MmuPowerpc64.FreeForPage | src/arch/powerpc64/mmu.rs:229-234 | while pages remain, at least 3 free frames are left for the next mapping |
| MmuPowerpc64.BootProgressStep | src/arch/powerpc64/mmu.rs:229-234 | a mapping of page k with the properties `map_page` guarantees advances the loop state to page k + 1 |
| MmuPowerpc64.MapIdentityPage | src/arch/powerpc64/mmu.rs:230-233 | with the corrected `map_page`: one iteration maps the page to itself and advances the loop state by one page |
| MmuPowerpc64.MapIdentityRegion | src/arch/powerpc64/mmu.rs:223-234 | with the corrected `map_page`: the loop ends with all 4096 pages of the first 16 MiB identity-mapped |
| MmuPowerpc64.Sdr1Value | src/arch/powerpc64/mmu.rs:191-192 | SDR1 has its low 12 bits clear, and for an aligned root it is the root address itself |
| MmuPowerpc64.EnableMsr | src/arch/powerpc64/mmu.rs:195-205 | the MSR is written with bit 4 set and every other bit as read |
| MmuPowerpc64.InitMmu | src/arch/powerpc64/mmu.rs:215-242 | with the corrected `map_page`: every page below 16 MiB then walks to `new_page(a, KERNEL_RW \| EXEC \| ACCESSED \| WIMGE_MASK)`, and SDR1 and the MSR receive the values above |
| MmuMips64.EntryHiValue | src/arch/mips64/mmu.rs:119-122 | EntryHi has bits 0..12 clear (ASID 0), and for an 8 KiB-aligned pair it is the virtual address itself |
| MmuMips64.EntryLoRoundTrip | src/arch/mips64/mmu.rs:127-133 | for a 4 KiB-aligned frame and flags in bits 0..5, the PFN field shifted back gives the frame and the low six bits give the flags |
| MmuMips64.ClearWrites | src/arch/mips64/mmu.rs:81-94 | the clear loop's writes for slots 0..n-1 are n writes |
| MmuMips64.ClearWritesAt | src/arch/mips64/mmu.rs:84-92 | write i of the clear loop is an indexed write to slot i with both EntryLo values zero |
| MmuMips64.FillWrites | src/arch/mips64/mmu.rs:158-167 | the fill loop's first n iterations make n writes |
| MmuMips64.FillWritesAt | src/arch/mips64/mmu.rs:158-167 | write i of the fill loop is the entry for slot i |
| MmuMips64.FillWriteIsIdentity | src/arch/mips64/mmu.rs:152-166 | entry i is a random write with PageMask 0, EntryHi `i * 8192`, EntryLo0 and EntryLo1 giving back the even and odd page of that pair, each with VALID, DIRTY, GLOBAL and CACHE_WB |
| MmuMips64.FillCoverage | src/arch/mips64/mmu.rs:151-160 | an address is covered by some fill entry exactly when it is below 512 KiB: the loop stops after 64 entries, far short of the 16 MiB it walks |
| MmuMips64.StatusValue | src/arch/mips64/mmu.rs:175-182 | Status is written with IE set, ERL and EXL clear, and bits 3..63 as read |
| MmuMips64.Cp0.WriteCp0 | src/arch/mips64/mmu.rs:67-70 | `mtc0` changes only the named register; the TLB is untouched |
| MmuMips64.Cp0.TlbWriteInstr | src/arch/mips64/mmu.rs:74-91 | `tlbwr`/`tlbwi` append the staged registers to the TLB write log and change no register |
| MmuMips64.Cp0.ClearTlbSlot | src/arch/mips64/mmu.rs:86-91 | one clear iteration appends the zero write for its slot, keeping PageMask, EntryHi and Status |
| MmuMips64.Cp0.TlbClearAll | src/arch/mips64/mmu.rs:81-94 | the TLB receives exactly the 64 clear writes, slots 0..63 in order |
| MmuMips64.Cp0.MapTlbEntry | src/arch/mips64/mmu.rs:108-140 | the TLB receives one random write of PageMask 0, EntryHi of `va`, and the two EntryLo values; Status is untouched |
| MmuMips64.Cp0.FillStep | src/arch/mips64/mmu.rs:162-166 | one fill iteration appends the entry for its slot |
| MmuMips64.Cp0.FillTlb | src/arch/mips64/mmu.rs:157-167 | the fill loop ends after exactly 64 entries, in slot order, with Status untouched |
| MmuMips64.Cp0.EnablePaging | src/arch/mips64/mmu.rs:144-196 | `enable_paging` (and `init_mmu`, which only calls it): the 64 clear writes, then the 64 fill writes, then Status updated as above |
| MmuOpenrisc64.MatchRoundTrip | src/arch/openrisc64/mmu.rs:108 | the match value keeps bits 0..11 of the address and holds the address's bits 12..63 with bit 12 (`PAGE_SIZE`) forced on |
| MmuOpenrisc64.TranslateRoundTrip | src/arch/openrisc64/mmu.rs:112-114 | for a 4 KiB-aligned frame and flags in bits 0..11, `ADDR_MASK` gives back the frame and the low 12 bits the flags |
| MmuOpenrisc64.MapLoadsAgree | src/arch/openrisc64/mmu.rs:108-122 | `map_tlb_entry` loads the data TLB and then the instruction TLB at the same index with the same match and translate values |
| MmuOpenrisc64.FillLoads | src/arch/openrisc64/mmu.rs:141-148 | the first n iterations of the fill loop make 2n loads |
| MmuOpenrisc64.FillLoadsAt | src/arch/openrisc64/mmu.rs:141-148 | loads 2i and 2i + 1 are the data and instruction loads of iteration i |
| MmuOpenrisc64.FillEntryValues | src/arch/openrisc64/mmu.rs:134-146 | slot b of both TLBs is loaded with match value `(b * 4096) \| PAGE_SIZE` and translate value `b * 4096` with VALID, WRITE, EXEC, D_DIRTY and CACHE_ENABLE |
| MmuOpenrisc64.FillEntryPages | src/arch/openrisc64/mmu.rs:108 | because `PAGE_SIZE` is bit 12, an odd slot matches its own virtual page, an even slot b matches page b + 1, and every slot translates to frame `b * 4096` |
| MmuOpenrisc64.AsWrittenSlotsShareMatch | src/arch/openrisc64/mmu.rs:108 | slots 0 and 1 match the same virtual page 0x1000 but translate it to different frames |
| MmuOpenrisc64.FillVirtualCoverage | src/arch/openrisc64/mmu.rs:142-146 | a virtual page is matched by some fill entry exactly when it is page-aligned, below 256 KiB and odd, so only half the pages the loop names are reachable |
| MmuOpenrisc64.NoSlotMatchesPageZero | src/arch/openrisc64/mmu.rs:108 | no fill entry matches virtual page 0 |
| MmuOpenrisc64.IntendedMatchValue | src/arch/openrisc64/mmu.rs:106-108 | the intended match value is the virtual page address alone: bits 12..63 of the address, low 12 bits clear |
| MmuOpenrisc64.IntendedFillIsIdentity | src/arch/openrisc64/mmu.rs:145-146 | with the intended match value slot b matches page `b * 4096` and translates it to frame `b * 4096`, in both TLBs |
| MmuOpenrisc64.IntendedFillCoverage | src/arch/openrisc64/mmu.rs:140-148 | with the intended match value a virtual page is matched exactly when it is page-aligned and below 256 KiB, and it is translated to itself |
| MmuOpenrisc64.FillCoverage | src/arch/openrisc64/mmu.rs:133-143 | a frame is the translate target of some fill entry exactly when it is page-aligned and below 256 KiB: the loop stops after 64 entries, far short of the 16 MiB it walks |
| MmuOpenrisc64.SrValue | src/arch/openrisc64/mmu.rs:155-164 | SR is written with DME and IME set and bits 2..63 as read |
| MmuOpenrisc64.SprFile.WriteSpr | src/arch/openrisc64/mmu.rs:65-69 | `l.mtspr` changes only the named register; a write to a look-up base register loads that TLB at the written index from its match and translate registers |
| MmuOpenrisc64.SprFile.MapTlbEntry | src/arch/openrisc64/mmu.rs:100-125 | the TLB log grows by exactly the data and instruction loads of the entry; SR is untouched |
| MmuOpenrisc64.SprFile.FillStep | src/arch/openrisc64/mmu.rs:146-147 | one fill iteration appends the two loads `map_tlb_entry` makes for its slot and the page at `slot * 4096` |
| MmuOpenrisc64.SprFile.FillTlb | src/arch/openrisc64/mmu.rs:141-148 | the fill loop ends after exactly 64 entries, in slot order, with SR untouched |
| MmuOpenrisc64.SprFile.EnablePaging | src/arch/openrisc64/mmu.rs:129-180 | `enable_paging` (and `init_mmu`, which only calls it): the 64 entries' loads, then SR updated as above |
| ExceptionAmd64.GateEntry | src/arch/amd64/exception.rs:75-83 | the descriptor's three offset fields put back together give the handler address exactly; selector and attributes are the given ones; IST and reserved are zero |
| ExceptionAmd64.InstalledStub | src/arch/amd64/exception.rs:108-119 | a stub is installed at a vector exactly when it is 0, 6, 8, 13, 14, 32 or 33 |
| ExceptionAmd64.InitFromEmpty | src/arch/amd64/exception.rs:94-120 | after `Idt::new` and `init`, each of the seven vectors holds a gate to its stub with selector 0x8, attributes 0x8E, IST 0; every other descriptor is still empty |
| ExceptionAmd64.Idt.constructor | src/arch/amd64/exception.rs:94-98 | 256 descriptors, all empty |
| ExceptionAmd64.Idt.SetHandler | src/arch/amd64/exception.rs:75-83 | descriptor v becomes the gate for the handler; no other descriptor changes |
| ExceptionAmd64.Idt.Init | src/arch/amd64/exception.rs:101-120 | every descriptor afterwards is the installed gate at the seven vectors and its previous value elsewhere |
| ExceptionAmd64.LoadIdtPointer | src/arch/amd64/exception.rs:232-237 | the `lidt` limit plus one is 256 × 16 bytes, and the base is the table's address |
| ExceptionAmd64.ExceptionHandler | src/arch/amd64/exception.rs:147-155 | every exception without an error code ends in a panic |
| ExceptionAmd64.ExceptionHandlerWithError | src/arch/amd64/exception.rs:159-175 | every exception with an error code ends in a panic |
| ExceptionAmd64.ClassifyIrq | src/arch/amd64/exception.rs:181-192 | a vector is the timer exactly when it is 32 and the keyboard exactly when it is 33 |
| ExceptionAmd64.InterruptHandler | src/arch/amd64/exception.rs:179-199 | the interrupt handler returns for every vector and leaves the saved context unchanged |
| ExceptionArmv9.VectorTable.constructor | src/arch/armv9/exception.rs:51-56 | the static table starts with all sixteen slots zero |
| ExceptionArmv9.VectorTable.Init | src/arch/armv9/exception.rs:60-81 | the SP0, SPx and lower-AArch64 groups become [sync stub, IRQ stub, 0, 0]; the AArch32 group is unchanged |
| ExceptionArmv9.SetGroup | src/arch/armv9/exception.rs:62-65 | one group becomes exactly [sync, irq, 0, 0] |
| ExceptionArmv9.ExceptionClass | src/arch/armv9/exception.rs:114 | the class is below 64 and, shifted back by 26, equals bits 26..31 of ESR_EL1 |
| ExceptionArmv9.ClassifySync | src/arch/armv9/exception.rs:116-121 | data abort exactly for 0x21, instruction abort exactly for 0x20, SVC exactly for 0x15, otherwise unknown with the class kept |
| ExceptionArmv9.SyncHandler | src/arch/armv9/exception.rs:107-124 | every synchronous exception ends in a panic |
| ExceptionArmv9.IrqHandler | src/arch/armv9/exception.rs:131-143 | the IRQ handler returns with the context unchanged |
| ExceptionRv64i.FromScause | src/arch/rv64i/exception.rs:57-76 | an interrupt cause comes only from a value with bit 63 set, an unknown cause carries the raw `scause`, and every named cause comes from exactly its own hardware code, so every other value decodes to `Unknown` |
| ExceptionRv64i.DecodeEncode | src/arch/rv64i/exception.rs:57-76 | each named cause is decoded back from its hardware `scause` value: 12, 13, 15, 8, 9, 1 without bit 63 and 1, 5, 9 with it |
| ExceptionRv64i.InterruptBitMatters | src/arch/rv64i/exception.rs:58-74 | low codes 1 and 9 decode to the instruction access fault and the S-mode call without bit 63, and to the software and external interrupts with it |
| ExceptionRv64i.HandleInterrupt | src/arch/rv64i/exception.rs:126-143 | the interrupt path leaves the context unchanged for every cause |
| ExceptionRv64i.TrapHandler | src/arch/rv64i/exception.rs:85-123 | returns exactly for interrupts and environment calls; interrupts leave the context unchanged, an environment call returns with SEPC + 4; page faults and other causes panic |
| ExceptionRv64i.EnvironmentCallAdvancesOnce | src/arch/rv64i/exception.rs:107-113 | an environment call from U or S mode changes SEPC by exactly 4 and nothing else |
| ExceptionLoongarch64.FromCode | src/arch/loongarch64/exception.rs:63-81 | only the low five bits matter, and the result is `Unknown` exactly when they are not one of 0-7, 11, 12, 14, 18 |
| ExceptionLoongarch64.DecodeCode | src/arch/loongarch64/exception.rs:47-81 | decoding a named cause's discriminant gives that cause back |
| ExceptionLoongarch64.CauseCode | src/arch/loongarch64/exception.rs:90 | the code is below 32 and, shifted back by 2, equals bits 2..6 of the cause CSR |
| ExceptionLoongarch64.PendingInterrupts | src/arch/loongarch64/exception.rs:126 | a line is reported pending exactly when it is set both in the status word and in the cause CSR shifted right by 10 |
| ExceptionLoongarch64.HandleInterrupt | src/arch/loongarch64/exception.rs:125-142 | the interrupt path leaves the context unchanged on both branches |
| ExceptionLoongarch64.ExceptionHandlerAsWritten | src/arch/loongarch64/exception.rs:89-122 | as written: the handler returns exactly for interrupts and system calls, and then the context is unchanged, ERA included; every other cause panics |
| ExceptionLoongarch64.AsWrittenSyscallRepeats | src/arch/loongarch64/exception.rs:106-111 | as written, a system call returns to the same state, and handling that state again returns it once more |
| ExceptionLoongarch64.ExceptionHandler | src/arch/loongarch64/exception.rs:89-122 | with the ERA advance the comment asks for: returns exactly for interrupts and system calls; interrupts leave the context unchanged, a system call returns with ERA + 4 |
| ExceptionLoongarch64.SyscallAdvances | src/arch/loongarch64/exception.rs:109-110 | with the advance, a system call changes ERA by exactly 4 and nothing else |
| ExceptionSparcv9.TrapOffset | src/arch/sparcv9/exception.rs:68 | the offset `trap_id * 0x40` (modulo 2^64) is always a multiple of 0x40 |
| ExceptionSparcv9.ClassifyOffset | src/arch/sparcv9/exception.rs:70-77 | the type is unknown exactly when the offset is not 0x00, 0x40, 0x80, 0x100 or 0x60, and it is the system call exactly for 0x60 |
| ExceptionSparcv9.ClassifyNamedIds | src/arch/sparcv9/exception.rs:68-77 | trap ids 0, 1, 2 and 4 select Reset, the instruction access exception, the data access exception and Interrupt |
| ExceptionSparcv9.SyscallUnreachable | src/arch/sparcv9/exception.rs:68-102 | no trap id reaches the system call branch, since 0x60 is not a multiple of 0x40 |
| ExceptionSparcv9.CompleteSyscall | src/arch/sparcv9/exception.rs:99-101 | the system call branch sets TPC to TNPC and changes nothing else |
| ExceptionSparcv9.HandleInterrupt | src/arch/sparcv9/exception.rs:116-125 | the interrupt path leaves the context unchanged |
| ExceptionSparcv9.TrapHandler | src/arch/sparcv9/exception.rs:67-113 | the handler returns exactly when the trap id selects Interrupt, and then with the context unchanged; every other trap panics |
| ExceptionPowerpc64.Classify | src/arch/powerpc64/exception.rs:75-83 | the type is unknown exactly when the offset is not 0x100, 0x300, 0x500, 0x600, 0xC00 or 0xD00, and it is never the system software trap |
| ExceptionPowerpc64.ClassifyOffset | src/arch/powerpc64/exception.rs:54-83 | every declared type except the system software trap is classified back from its own offset; 0x200 is classified unknown |
| ExceptionPowerpc64.HandleInterrupt | src/arch/powerpc64/exception.rs:120-129 | the interrupt path leaves the context unchanged |
| ExceptionPowerpc64.ExceptionHandler | src/arch/powerpc64/exception.rs:74-117 | returns exactly for offsets 0x300 and 0xC00; an external interrupt leaves the context unchanged, a system call returns with SRR0 + 4; every other offset panics |
| ExceptionPowerpc64.SyscallAdvances | src/arch/powerpc64/exception.rs:100-106 | a system call changes SRR0 by exactly 4 and nothing else |
| ExceptionMips64.FromCause | src/arch/mips64/exception.rs:56-73 | the cause is `Unknown` exactly when bits 2..6 of the raw value exceed 9 |
| ExceptionMips64.DecodeCause | src/arch/mips64/exception.rs:42-73 | a Cause value with a named cause's code in bits 2..6 decodes to that cause whatever its other bits |
| ExceptionMips64.ActiveInterrupts | src/arch/mips64/exception.rs:124-127 | the active set is below 0x100 and, shifted back by 8, is Cause.IP and Status.IM intersected |
| ExceptionMips64.HandleInterrupt | src/arch/mips64/exception.rs:122-140 | the interrupt path leaves the context unchanged on both branches |
| ExceptionMips64.ExceptionHandler | src/arch/mips64/exception.rs:81-119 | returns exactly for interrupts and system calls; interrupts leave the context unchanged, a system call returns with EPC + 4; TLB and all other causes panic |
| ExceptionMips64.SyscallAdvances | src/arch/mips64/exception.rs:101-108 | a system call changes EPC by exactly 4 and nothing else |
| ExceptionOpenrisc64.FromCode | src/arch/openrisc64/exception.rs:50-65 | every value decodes to a named cause whose discriminant is the value's low three bits, so the `_Unknown` arm is unreachable |
| ExceptionOpenrisc64.DecodeCode | src/arch/openrisc64/exception.rs:38-65 | decoding a cause's discriminant gives that cause back |
| ExceptionOpenrisc64.TrapType | src/arch/openrisc64/exception.rs:74 | the trap type is below 8 and, shifted back by 1, equals bits 1..3 of TSR |
| ExceptionOpenrisc64.HandleInterrupt | src/arch/openrisc64/exception.rs:109-119 | the interrupt path leaves the context unchanged |
| ExceptionOpenrisc64.ExceptionHandler | src/arch/openrisc64/exception.rs:73-106 | returns exactly for interrupts and traps; interrupts leave the context unchanged, a trap returns with EPCR + 4; the TLB causes and the other faults panic |
| ExceptionOpenrisc64.TrapAdvances | src/arch/openrisc64/exception.rs:90-96 | a trap changes EPCR by exactly 4 and nothing else |
| InterruptAmd64.LineBit | src/arch/amd64/interrupt.rs:124-131 | the mask bit of a line is a single bit |
| InterruptAmd64.SetBit | src/arch/amd64/interrupt.rs:127-131 | or-ing the bit in masks the line and keeps every other line's state |
| InterruptAmd64.ClearBit | src/arch/amd64/interrupt.rs:144-148 | and-ing with the complement unmasks the line and keeps every other line's state |
| InterruptAmd64.MaskLaws | src/arch/amd64/interrupt.rs:120-151 | masking is idempotent, and unmasking after masking equals unmasking alone, which leaves the line open |
| InterruptAmd64.Commands | src/arch/amd64/interrupt.rs:29-32 | removing the `io_wait` writes to port 0x80 keeps the other writes in order |
| InterruptAmd64.CommandsAppend | src/arch/amd64/interrupt.rs:29-32 | removing the delays distributes over concatenation |
| InterruptAmd64.CommandsOfWriteAndWait | src/arch/amd64/interrupt.rs:63-64 | a register write followed by its delay leaves just the register write |
| InterruptAmd64.CommandsOfFour | src/arch/amd64/interrupt.rs:63-74 | four writes, each followed by a delay, leave the four writes |
| InterruptAmd64.InitCommandOrder | src/arch/amd64/interrupt.rs:57-99 | without the delays, `init_pic` writes ICW1 0x11 to 0x20 and 0xA0, offsets 32 and 40, cascade words 0x04 and 0x02, mode 0x01 twice, then masks 0xFB and 0xFF, master before slave each time |
| InterruptAmd64.RemapCommands | src/arch/amd64/interrupt.rs:63-74 | the ICW1 and ICW2 writes in order, without delays |
| InterruptAmd64.ModeCommands | src/arch/amd64/interrupt.rs:78-88 | the ICW3 and ICW4 writes in order, without delays |
| InterruptAmd64.EoiWrites | src/arch/amd64/interrupt.rs:106-116 | the last write is always EOI to the master; there is a first write, EOI to the slave, exactly when the vector is 40 or above |
| InterruptAmd64.Pics.constructor | src/arch/amd64/interrupt.rs:38-42 | the PICs start with the given masks and an empty write log |
| InterruptAmd64.Pics.PortOut | src/arch/amd64/interrupt.rs:12-15 | a port write is logged, and a write to 0x21 or 0xA1 becomes that PIC's mask |
| InterruptAmd64.Pics.ReadMask | src/arch/amd64/interrupt.rs:19-24 | reading 0x21 or 0xA1 gives that PIC's mask |
| InterruptAmd64.Pics.OutAndWait | src/arch/amd64/interrupt.rs:29-64 | a register write followed by the delay write to port 0x80 |
| InterruptAmd64.Pics.InitPic | src/arch/amd64/interrupt.rs:57-99 | the log grows by the full initialisation sequence, and the masks end as 0xFB and 0xFF whatever they were |
| InterruptAmd64.Pics.SendEoi | src/arch/amd64/interrupt.rs:106-116 | the log grows by the EOI writes for the vector; the masks are unchanged |
| InterruptAmd64.Pics.MaskIrq | src/arch/amd64/interrupt.rs:120-134 | a line below 8 sets its bit in the master mask, any other line a bit in the slave mask; the other PIC's mask is unchanged and the new mask is written to its data port |
| InterruptAmd64.Pics.UnmaskIrq | src/arch/amd64/interrupt.rs:137-151 | the same bit is cleared in the same mask; the other PIC's mask is unchanged and the new mask is written to its data port |
| InterruptArmv9.IrqBit | src/arch/armv9/interrupt.rs:71-72 | an interrupt's bit within its enable word is a single bit |
| InterruptArmv9.EnableOffset | src/arch/armv9/interrupt.rs:69-70 | the set-enable register is word-aligned and is word `irq / 32` of the ISENABLER bank |
| InterruptArmv9.DisableOffset | src/arch/armv9/interrupt.rs:76-77 | the clear-enable register is word-aligned, word `irq / 32` of the ICENABLER bank, 0x80 above the set-enable register |
| InterruptArmv9.BankBounds | src/arch/armv9/interrupt.rs:38-79 | the set-enable offset stays inside its bank, and the clear-enable offset inside its bank, exactly for interrupts below 1024 |
| InterruptArmv9.Decode | src/arch/armv9/interrupt.rs:38-45 | an offset decodes to the control register exactly at 0, and to a set-enable or clear-enable word only at that word's aligned address in its bank |
| InterruptArmv9.DecodeWord | src/arch/armv9/interrupt.rs:40-43 | word `w` of either bank decodes back to that word of that bank |
| InterruptArmv9.InitDisableWrites | src/arch/armv9/interrupt.rs:58-61 | the loop `(32..256).step_by(32)` makes one write per value after 32 below `i` |
| InterruptArmv9.InitDisableTargets | src/arch/armv9/interrupt.rs:58-61 | write k of the loop is all ones to 0x184 + 4k: the loop covers ICENABLER1..7, interrupts 32..255, and never ICENABLER0 |
| InterruptArmv9.InitWrites | src/arch/armv9/interrupt.rs:49-66 | `init` makes nine writes: CTLR 0, the seven disable words, CTLR 1 |
| InterruptArmv9.GicDistributor.constructor | src/arch/armv9/interrupt.rs:23 | a distributor starts with the given control word and enable bits and no writes |
| InterruptArmv9.GicDistributor.WriteReg | src/arch/armv9/interrupt.rs:34-36 | a write is logged; at CTLR it replaces the control word, at a set-enable word it sets the 1 bits, at a clear-enable word it clears them, elsewhere nothing else changes |
| InterruptArmv9.GicDistributor.DisableWord | src/arch/armv9/interrupt.rs:59-60 | one pass zeroes the enable word of interrupts i..i+31 and no other word |
| InterruptArmv9.GicDistributor.DisableWords | src/arch/armv9/interrupt.rs:58-61 | the loop logs its seven writes and zeroes words 1..7, leaving word 0 and the control word alone |
| InterruptArmv9.GicDistributor.Init | src/arch/armv9/interrupt.rs:49-66 | after `init` the control word is 1, interrupts 32..255 are disabled, the banked interrupts 0..31 keep their enable bits, and the log grows by the nine writes |
| InterruptArmv9.GicDistributor.EnableIrq | src/arch/armv9/interrupt.rs:69-73 | one write of the bit to the set-enable register; below 1024 the interrupt is then enabled and no other enable bit changes |
| InterruptArmv9.GicDistributor.DisableIrq | src/arch/armv9/interrupt.rs:76-80 | one write of the bit to the clear-enable register; below 1024 the interrupt is then disabled and no other enable bit changes |
| InterruptRv64i.SourceBit | src/arch/rv64i/interrupt.rs:83-98 | a source's bit within its enable word is a single bit |
| InterruptRv64i.Completion | src/arch/rv64i/interrupt.rs:147-157 | a claimed id is completed exactly when it lies in 1..1023, and then it is that same id |
| InterruptRv64i.Plic.constructor | src/arch/rv64i/interrupt.rs:59 | the controller starts with the given priorities, enable words and threshold, and no completions |
| InterruptRv64i.Plic.WritePriority | src/arch/rv64i/interrupt.rs:74 | a write at byte offset 4s sets the priority of source s and of no other source; nothing else changes (the priority base is at line 22) |
| InterruptRv64i.Plic.InitAsWritten | src/arch/rv64i/interrupt.rs:63-78 | `init` as written: enable word 0 and the threshold become 0, sources 2..256 get priority 1, and source 1 keeps its old priority |
| InterruptRv64i.Plic.Init | src/arch/rv64i/interrupt.rs:63-78 | `init` corrected: enable word 0 and the threshold become 0, exactly sources 1..255 get priority 1, and every other register keeps its value |
| InterruptRv64i.Plic.EnableIrq | src/arch/rv64i/interrupt.rs:81-89 | the source's enable bit ends set and every other bit and word keeps its value |
| InterruptRv64i.Plic.DisableIrq | src/arch/rv64i/interrupt.rs:92-100 | the source's enable bit ends clear and every other bit and word keeps its value |
| InterruptRv64i.Plic.CompleteIrq | src/arch/rv64i/interrupt.rs:108-110 | the id is written to the claim/complete register; no other register changes |
| InterruptRv64i.Plic.HandleExternalInterrupts | src/arch/rv64i/interrupt.rs:144-159 | the claimed id is completed exactly when it lies in 1..1023, and nothing else is written |
| InterruptRv64i.Clint.constructor | src/arch/rv64i/interrupt.rs:117 | the interruptor starts with the given MSIP and compare values |
| InterruptRv64i.Clint.TriggerSoftwareInterrupt | src/arch/rv64i/interrupt.rs:121-124 | MSIP becomes 1; the compare register is unchanged |
| InterruptRv64i.Clint.ClearSoftwareInterrupt | src/arch/rv64i/interrupt.rs:127-129 | MSIP becomes 0; the compare register is unchanged |
| InterruptRv64i.Clint.SetNextTimerInterrupt | src/arch/rv64i/interrupt.rs:132-136 | the compare register lies `interval` ticks after MTIME modulo 2^64, and exactly `interval` ticks after it when the sum does not overflow |
| InterruptRv64i.Clint.HandleTimerInterrupt | src/arch/rv64i/interrupt.rs:162-172 | the next timer interrupt is 10 000 000 ticks after MTIME |
| InterruptRv64i.InitInterrupts | src/arch/rv64i/interrupt.rs:175-188 | after initialisation enable word 0 and the threshold are 0, sources 1..255 have priority 1, the first timer interrupt is 10 000 000 ticks after MTIME, and MSIP is 0 |
| InterruptRv64i.InitAsWrittenMissesSourceOne | src/arch/rv64i/interrupt.rs:73-75 | after `init` as written source 1 still has priority 0 (it can never interrupt) and source 256, outside the intended range, has priority 1 (also line 22) |
| InterruptRv64i.InitCoversSources | src/arch/rv64i/interrupt.rs:67-75 | after the corrected `init` every source 1..255 has a priority above the threshold 0 |
| InterruptLoongarch64.LineBit | src/arch/loongarch64/interrupt.rs:87-95 | a line's enable-register bit is a single bit |
| InterruptLoongarch64.GetIrq | src/arch/loongarch64/interrupt.rs:69-80 | the result is below 32; it is 0 for an idle status; otherwise it is the position of the status word's highest set bit |
| InterruptLoongarch64.GetIrqIsHighest | src/arch/loongarch64/interrupt.rs:77-79 | every pending line is at most the line `get_irq` reports, so the highest line wins (not the lowest, as the comment beside the code says) |
| InterruptLoongarch64.AsWrittenPicksHighest | src/arch/loongarch64/interrupt.rs:77-79 | with lines 1 and 2 pending, `get_irq` as written reports line 2, the intended one line 1 |
| InterruptLoongarch64.GetIrqLowest | src/arch/loongarch64/interrupt.rs:77-79 | as the comment intends: below 32; 0 when nothing is pending; otherwise a pending line with every lower line clear |
| InterruptLoongarch64.GetIrqLowestIsLowest | src/arch/loongarch64/interrupt.rs:77-79 | no line below the one the intended `get_irq` reports is pending |
| InterruptLoongarch64.LineZeroLooksIdle | src/arch/loongarch64/interrupt.rs:73-113 | line 0 pending alone gives the same answer as nothing pending |
| InterruptLoongarch64.HtPic.constructor | src/arch/loongarch64/interrupt.rs:12-18 | the controller starts with the given enable register and no EOIs |
| InterruptLoongarch64.HtPic.InitPic | src/arch/loongarch64/interrupt.rs:43-52 | every line is masked and no EOI is written |
| InterruptLoongarch64.HtPic.SendEoi | src/arch/loongarch64/interrupt.rs:59-62 | the line number is written to the EOI register; the mask is unchanged |
| InterruptLoongarch64.HtPic.MaskIrq | src/arch/loongarch64/interrupt.rs:84-89 | the line's bit ends set and every other bit keeps its value |
| InterruptLoongarch64.HtPic.UnmaskIrq | src/arch/loongarch64/interrupt.rs:92-97 | the line's bit ends clear and every other bit keeps its value |
| InterruptLoongarch64.HtPic.HandleExternalInterrupts | src/arch/loongarch64/interrupt.rs:108-123 | an EOI carrying the line found is written exactly when that line is above 0, and nothing else is written; the mask is unchanged |
| InterruptSparcv9.LineBit | src/arch/sparcv9/interrupt.rs:55-87 | a line's register bit is a single bit |
| InterruptSparcv9.GetIrq | src/arch/sparcv9/interrupt.rs:62-72 | the result is below 64; it is 0 when nothing is pending; otherwise it is the position of the pending word's highest set bit |
| InterruptSparcv9.GetIrqIsHighest | src/arch/sparcv9/interrupt.rs:70-71 | every pending line is at most the line `get_irq` reports, so the highest line wins (not the lowest, as the comment beside the code says) |
| InterruptSparcv9.AsWrittenPicksHighest | src/arch/sparcv9/interrupt.rs:70-71 | with lines 1 and 2 pending, `get_irq` as written reports line 2, the intended one line 1 |
| InterruptSparcv9.GetIrqLowest | src/arch/sparcv9/interrupt.rs:70-71 | as the comment intends: below 64; 0 when nothing is pending; otherwise a pending line with every lower line clear |
| InterruptSparcv9.GetIrqLowestIsLowest | src/arch/sparcv9/interrupt.rs:70-71 | no line below the one the intended `get_irq` reports is pending |
| InterruptSparcv9.Controller.constructor | src/arch/sparcv9/interrupt.rs:14-20 | the controller starts with the given enable register and no clear-register writes |
| InterruptSparcv9.Controller.InitController | src/arch/sparcv9/interrupt.rs:39-47 | every line is masked (enable register 0) and nothing is cleared |
| InterruptSparcv9.Controller.SendEoi | src/arch/sparcv9/interrupt.rs:53-56 | the line's bit is written to the clear register; the enable register is unchanged |
| InterruptSparcv9.Controller.MaskIrq | src/arch/sparcv9/interrupt.rs:76-81 | the line's bit ends clear and every other bit keeps its value |
| InterruptSparcv9.Controller.UnmaskIrq | src/arch/sparcv9/interrupt.rs:84-89 | the line's bit ends set and every other bit keeps its value |
| InterruptSparcv9.Controller.HandleExternalInterrupts | src/arch/sparcv9/interrupt.rs:133-148 | the bit of the line found is written to the clear register exactly when that line is above 0, and nothing else is written |
| InterruptSparcv9.Cpu.constructor | src/arch/sparcv9/interrupt.rs:96-100 | the CPU starts with the given TSTATE |
| InterruptSparcv9.Cpu.EnableInterrupts | src/arch/sparcv9/interrupt.rs:96-108 | bit 17 of TSTATE is set and every other bit kept |
| InterruptSparcv9.Cpu.DisableInterrupts | src/arch/sparcv9/interrupt.rs:111-123 | bit 17 of TSTATE is cleared and every other bit kept |
| InterruptMips64.LineBitInField | src/arch/mips64/interrupt.rs:17-20 | the bit `1 << (line + 8)` of each line 0..7 is a single bit inside the mask field IM0..IM7 and the pending field IP0..IP7 (also lines 79, 94, 127) |
| InterruptMips64.PendingWithinField | src/arch/mips64/interrupt.rs:118 | the pending lines computed by the handler lie within bits 8..15 |
| InterruptMips64.PendingIsCommonLines | src/arch/mips64/interrupt.rs:118 | a line is pending for the handler exactly when Cause has it pending and Status has it unmasked |
| InterruptMips64.ClearLineBits | src/arch/mips64/interrupt.rs:95-139 | clearing a line's bit leaves it clear and every other bit as it was |
| InterruptMips64.LineZeroBits | src/arch/mips64/interrupt.rs:127-139 | software line IP0 is bit 8 of Cause |
| InterruptMips64.LineOneBits | src/arch/mips64/interrupt.rs:127-139 | software line IP1 is bit 9 of Cause |
| InterruptMips64.InitStatus | src/arch/mips64/interrupt.rs:157-173 | the value `init_interrupts` writes has IE clear, exactly IM0 and IM1 set in the mask field, and every other Status bit as read |
| InterruptMips64.InitMasksHardwareLines | src/arch/mips64/interrupt.rs:157-173 | after `init_interrupts` no hardware line 2..7 can be pending, whatever Cause holds |
| InterruptMips64.ClearedCauseBits | src/arch/mips64/interrupt.rs:137-141 | the intended Cause value has every pending software line clear and every other bit as read |
| InterruptMips64.ClearedBothBits | src/arch/mips64/interrupt.rs:137-141 | with IP0 and IP1 pending the intended value clears bits 8 and 9 |
| InterruptMips64.ClearedZeroBit | src/arch/mips64/interrupt.rs:137-141 | with IP0 pending alone the intended value clears bit 8 |
| InterruptMips64.ClearedOneBit | src/arch/mips64/interrupt.rs:137-141 | with IP1 pending alone the intended value clears bit 9 |
| InterruptMips64.ClearedNoBit | src/arch/mips64/interrupt.rs:137-141 | with no software line pending the intended value is Cause as read |
| InterruptMips64.IntendedClearsPendingLines | src/arch/mips64/interrupt.rs:126-151 | clearing each pending software line in turn, in the current Cause value, leaves Cause with exactly the pending software lines cleared |
| InterruptMips64.AsWrittenAgreesWithoutLineOne | src/arch/mips64/interrupt.rs:126-151 | when IP1 is not pending, the handler as written clears what is intended |
| InterruptMips64.StaleClearKeepsLineZero | src/arch/mips64/interrupt.rs:114-142 | with both software lines pending and unmasked, the handler as written leaves IP0 set in Cause, while the intended handler clears it |
| InterruptMips64.Cp0.constructor | src/arch/mips64/interrupt.rs:11-12 | the coprocessor starts with the given Status and Cause |
| InterruptMips64.Cp0.EnableInterrupts | src/arch/mips64/interrupt.rs:53-58 | IE is set and every other Status bit and Cause are unchanged |
| InterruptMips64.Cp0.DisableInterrupts | src/arch/mips64/interrupt.rs:61-66 | IE is cleared and every other Status bit and Cause are unchanged |
| InterruptMips64.Cp0.UnmaskIrq | src/arch/mips64/interrupt.rs:72-82 | a line above 7 changes nothing; otherwise its IM bit is set and every other bit kept |
| InterruptMips64.Cp0.MaskIrq | src/arch/mips64/interrupt.rs:88-97 | a line above 7 changes nothing; otherwise its IM bit is cleared and every other bit kept |
| InterruptMips64.Cp0.ServiceLineAsWritten | src/arch/mips64/interrupt.rs:127-142 | a pending software line makes Cause the value read at entry with that bit clear; any other line writes nothing |
| InterruptMips64.Cp0.ServiceLinesAsWritten | src/arch/mips64/interrupt.rs:126-151 | the loop as written leaves Cause as the last software-line write made from the value read at entry |
| InterruptMips64.Cp0.HandleInterruptsAsWritten | src/arch/mips64/interrupt.rs:111-153 | `handle_interrupts` as written: Cause ends as the last clearing write made from the value read at entry; Status is unchanged |
| InterruptMips64.Cp0.ServiceLine | src/arch/mips64/interrupt.rs:127-142 | a pending software line has its bit cleared in the current Cause value; any other line writes nothing |
| InterruptMips64.Cp0.ServiceLines | src/arch/mips64/interrupt.rs:126-151 | the loop clears each pending software line in turn, line 0 first |
| InterruptMips64.Cp0.HandleInterrupts | src/arch/mips64/interrupt.rs:111-153 | the corrected handler leaves Cause with exactly the pending software lines cleared and every other bit as read; Status is unchanged |
| InterruptMips64.Cp0.InitInterrupts | src/arch/mips64/interrupt.rs:157-173 | Status becomes the initial value: IE clear, only the software lines unmasked; Cause is unchanged |
| InterruptOpenrisc64.LineBit | src/arch/openrisc64/interrupt.rs:78-86 | a line's enable-register bit is a single bit |
| InterruptOpenrisc64.GetIrq | src/arch/openrisc64/interrupt.rs:62-71 | the result is below 32; it is 0 when nothing is pending; otherwise it is the position of the pending word's highest set bit |
| InterruptOpenrisc64.GetIrqIsHighest | src/arch/openrisc64/interrupt.rs:69-70 | every pending line is at most the line `get_irq` reports, so the highest line wins (not the lowest, as the comment beside the code says) |
| InterruptOpenrisc64.AsWrittenPicksHighest | src/arch/openrisc64/interrupt.rs:69-70 | with lines 1 and 2 pending, `get_irq` as written reports line 2, the intended one line 1 |
| InterruptOpenrisc64.GetIrqLowest | src/arch/openrisc64/interrupt.rs:69-70 | as the comment intends: below 32; 0 when nothing is pending; otherwise a pending line with every lower line clear |
| InterruptOpenrisc64.GetIrqLowestIsLowest | src/arch/openrisc64/interrupt.rs:69-70 | no line below the one the intended `get_irq` reports is pending |
| InterruptOpenrisc64.Pic.constructor | src/arch/openrisc64/interrupt.rs:13-18 | the controller starts with the given enable register and no EOIs |
| InterruptOpenrisc64.Pic.InitPic | src/arch/openrisc64/interrupt.rs:37-47 | every line is masked (enable register 0) and no EOI is written |
| InterruptOpenrisc64.Pic.SendEoi | src/arch/openrisc64/interrupt.rs:53-56 | the line number is written to the EOI register; the enable register is unchanged |
| InterruptOpenrisc64.Pic.MaskIrq | src/arch/openrisc64/interrupt.rs:75-80 | the line's bit ends clear and every other bit keeps its value |
| InterruptOpenrisc64.Pic.UnmaskIrq | src/arch/openrisc64/interrupt.rs:83-88 | the line's bit ends set and every other bit keeps its value |
| InterruptOpenrisc64.Pic.HandleExternalInterrupts | src/arch/openrisc64/interrupt.rs:132-147 | an EOI carrying the line found is written exactly when that line is above 0, and nothing else is written; the enable register is unchanged |
| InterruptOpenrisc64.Cpu.constructor | src/arch/openrisc64/interrupt.rs:94-98 | the CPU starts with the given supervision register |
| InterruptOpenrisc64.Cpu.EnableInterrupts | src/arch/openrisc64/interrupt.rs:95-110 | the supervision register is unchanged: the bit is set in a local filled by an empty `asm!` and handed to another empty `asm!` |
| InterruptOpenrisc64.Cpu.DisableInterrupts | src/arch/openrisc64/interrupt.rs:113-122 | the supervision register is unchanged, for the same reason |
| TaskAmd64.Layout | src/arch/amd64/task.rs:13-35 | the `repr(C)` image has eight slots, reads back as the same context, and holds rsp at byte 48 and rip at byte 56, the offsets the assembly uses (also lines 93, 126) |
| TaskAmd64.New | src/arch/amd64/task.rs:43-60 | a new context has rsp the stack top, rip the entry point and the six general registers 0 |
| TaskAmd64.FrameEndOfBase | src/arch/amd64/task.rs:84-93 | the frame the pushes leave ends, 48 bytes up, at the rsp they started from |
| TaskAmd64.AboveBelow | src/arch/amd64/task.rs:84-120 | a pop undoes the stack-pointer move of a push, modulo 2^64 |
| TaskAmd64.SixAbove | src/arch/amd64/task.rs:115-120 | six pops raise rsp by 48 bytes |
| TaskAmd64.SixBelow | src/arch/amd64/task.rs:84-89 | six pushes lower rsp by 48 bytes |
| TaskAmd64.FrameAddrs | src/arch/amd64/task.rs:84-89 | the frame has six word addresses |
| TaskAmd64.FrameApart | src/arch/amd64/task.rs:84-89 | the six frame addresses are pairwise distinct, so no push overwrites another |
| TaskAmd64.FrameInEither | src/arch/amd64/task.rs:84-111 | a frame present before the pushes is still present after them |
| TaskAmd64.Popped | src/arch/amd64/task.rs:115-120 | the registers the pops take, laid out in push order, are exactly the frame's words |
| TaskAmd64.PushedFrameHolds | src/arch/amd64/task.rs:84-89 | after the pushes the frame at the new rsp holds r15..rbx, the last pushed lowest |
| TaskAmd64.PushedKeepsOutside | src/arch/amd64/task.rs:84-89 | the pushes change no stack word outside their frame and remove none |
| TaskAmd64.PushAll | src/arch/amd64/task.rs:84-89 | the six pushes leave rsp 48 bytes lower and the registers in the frame |
| TaskAmd64.PopAll | src/arch/amd64/task.rs:115-120 | the six pops load the frame's words into rbx, rbp, r12, r13, r14, r15 and raise rsp by 48 |
| TaskAmd64.PopAfterPush | src/arch/amd64/task.rs:84-120 | popping a frame just pushed gives back every register and the original rsp |
| TaskAmd64.Save | src/arch/amd64/task.rs:84-93 | the save half stores the frame on the stack and the frame's address in the old context's rsp field, and writes no other field, rip included |
| TaskAmd64.Load | src/arch/amd64/task.rs:111-127 | the load half takes rsp from byte 48, pops the registers from that frame and jumps to the rip at byte 56 |
| TaskAmd64.SwitchContext | src/arch/amd64/task.rs:72-135 | the old context records the new frame, the registers come from the new context's frame and the jump goes to its rip; switching a context to itself gives every register and rsp back and resumes at its rip |
| TaskArmv9.Layout | src/arch/armv9/task.rs:13-39 | the `repr(C)` image has fourteen slots and reads back as the same context |
| TaskArmv9.LayoutOfFromLayout | src/arch/armv9/task.rs:13-39 | every fourteen-slot image is the image of the context it holds, so layout and read-back are inverses |
| TaskArmv9.New | src/arch/armv9/task.rs:47-63 | a new context restores x19..x29 as 0, x30 as the entry point and sp as the stack top, and resumes at the entry point |
| TaskArmv9.Saved | src/arch/armv9/task.rs:85-104 | the saved context restores exactly the registers that were saved, and its pc is the link register x30 |
| TaskArmv9.Save | src/arch/armv9/task.rs:85-104 | the stores at offsets 0..104 fill every field of the old context: each register in its own field and x30 again as pc |
| TaskArmv9.Load | src/arch/armv9/task.rs:110-128 | the loads from offsets 0..96 give every register from its own field, and the branch target is the pc field |
| TaskArmv9.SwitchContext | src/arch/armv9/task.rs:72-136 | the old context becomes the saved registers, the new registers and branch target come from the new context; switching a context to itself gives every register back and resumes at x30 |
| TaskRv64i.Layout | src/arch/rv64i/task.rs:11-31 | the `repr(C)` image has fourteen slots and reads back as the same context |
| TaskRv64i.LayoutOfFromLayout | src/arch/rv64i/task.rs:11-31 | every fourteen-slot image is the image of the context it holds, so layout and read-back are inverses |
| TaskRv64i.New | src/arch/rv64i/task.rs:39-52 | a new context has ra the entry point, sp the stack top and s0..s11 all 0 |
| TaskRv64i.Save | src/arch/rv64i/task.rs:73-89 | the `sd` stores at offsets 0..104 leave the old context holding exactly the saved registers |
| TaskRv64i.Load | src/arch/rv64i/task.rs:95-115 | the `ld` loads give exactly the registers the new context holds, and the jump target is its ra |
| TaskRv64i.SwitchContext | src/arch/rv64i/task.rs:61-122 | the old context becomes the saved registers and the new ones come from the new context; switching a context to itself gives every register back and resumes at ra |
| TaskLoongarch64.Layout | src/arch/loongarch64/task.rs:11-32 | the `repr(C)` image has twelve slots and reads back as the same context |
| TaskLoongarch64.LayoutOfFromLayout | src/arch/loongarch64/task.rs:11-32 | every twelve-slot image is the image of the context it holds, so layout and read-back are inverses |
| TaskLoongarch64.New | src/arch/loongarch64/task.rs:40-53 | a new context has ra the entry point, sp the stack top and r22..r31 all 0 |
| TaskLoongarch64.Save | src/arch/loongarch64/task.rs:74-88 | the `st.d` stores at offsets 0..88 leave the old context holding exactly the saved registers |
| TaskLoongarch64.Load | src/arch/loongarch64/task.rs:94-112 | the `ld.d` loads give exactly the registers the new context holds, and the jump target is its ra |
| TaskLoongarch64.SwitchContext | src/arch/loongarch64/task.rs:62-120 | the old context becomes the saved registers and the new ones come from the new context; switching a context to itself gives every register back and resumes at ra |
| TaskSparcv9.Layout | src/arch/sparcv9/task.rs:11-41 | the `repr(C)` image has thirteen slots and reads back as the same context |
| TaskSparcv9.WriteAsrZero | src/arch/sparcv9/task.rs:117-118 | `wr` with immediate 0 moves its operand into ASR24 unchanged |
| TaskSparcv9.New | src/arch/sparcv9/task.rs:49-62 | a new context has sp the stack top, lr and pc the entry point, npc four bytes after pc modulo 2^64, and every other field 0 |
| TaskSparcv9.SaveWindow | src/arch/sparcv9/task.rs:89-96 | the stores at 0, 8, 48, 56 and 64 set g1, g2, g7, sp and lr and no other field |
| TaskSparcv9.SaveCounters | src/arch/sparcv9/task.rs:100-108 | the stores at 72, 80 and 88 set pc, npc and y to the values read and no other field |
| TaskSparcv9.SaveAsr24 | src/arch/sparcv9/task.rs:107-109 | the store at 96 sets the ccr field to the value read back from ASR24 and no other field |
| TaskSparcv9.Save | src/arch/sparcv9/task.rs:86-109 | the save half leaves the old context with g1, g2, g7, sp, lr, the pc and npc read, Y, and `Y xor 0x1000` as ccr, g3..g6 untouched; ASR24 ends as `Y xor 0x1000` |
| TaskSparcv9.Load | src/arch/sparcv9/task.rs:114-135 | the load half sets Y and ASR24 from the y and ccr fields, g1, g2, g7, o6 and o7 from theirs, and jumps to the pc field |
| TaskSparcv9.SwitchContext | src/arch/sparcv9/task.rs:71-145 | switching a context to itself gives back g1, g2, g7, o6, o7 and Y and resumes at the pc read, while ASR24 ends as `Y xor 0x1000` |
| TaskSparcv9.Fresh | src/arch/sparcv9/task.rs:114-128 | a fresh task starts with sp its stack top, return address its entry point, and Y and ASR24 zero (also lines 49-62) |
| TaskSparcv9.Asr24NotPreserved | src/arch/sparcv9/task.rs:105-118 | a self-switch loses ASR24 whenever it differed from `Y xor 0x1000` |
| TaskPowerpc64.Layout | src/arch/powerpc64/task.rs:10-46 | the `repr(C)` image has 24 slots and reads back as the same context |
| TaskPowerpc64.New | src/arch/powerpc64/task.rs:54-70 | a new context has r1 the stack top, lr and pc the entry point, r2 and r13 the given TOC and thread pointer, and every other field, CR included, 0 |
| TaskPowerpc64.SaveAsWritten | src/arch/powerpc64/task.rs:90-113 | the save half as written stores r14, r15, r31, r2, r13 and r1 in their fields, LR in the cr field, CR in the lr and pc fields, and leaves the fields of r16..r30 untouched |
| TaskPowerpc64.LoadAsWritten | src/arch/powerpc64/task.rs:118-143 | the load half as written takes r1, r14, r15, r31, r2 and r13 from their fields, LR from the cr field and CR from the lr field, keeps r16..r30, and branches to the pc field |
| TaskPowerpc64.SwitchContextAsWritten | src/arch/powerpc64/task.rs:79-151 | `switch_context` as written: switching a context to itself gives every register back and resumes at the saved CR value, not at LR |
| TaskPowerpc64.AsWrittenResumesAtCr | src/arch/powerpc64/task.rs:102-113 | as written a saved context has LR and CR swapped, and its pc is not its LR whenever CR differs from LR |
| TaskPowerpc64.FreshAsWritten | src/arch/powerpc64/task.rs:54-70 | as written a fresh task starts with LR 0 and CR its entry point (also lines 133-138) |
| TaskPowerpc64.AsWrittenExample | src/arch/powerpc64/task.rs:104-113 | a concrete save as written with LR 0x1000 and CR 0x2 records pc 0x2 |
| TaskPowerpc64.Saved | src/arch/powerpc64/task.rs:87-113 | the intended saved context restores exactly the registers that were saved, and its pc is LR |
| TaskPowerpc64.SaveR14ToR19 | src/arch/powerpc64/task.rs:90-94 | the intended stores at 0..40 set r14..r19 and no other field |
| TaskPowerpc64.SaveR20ToR25 | src/arch/powerpc64/task.rs:90-94 | the intended stores at 48..88 set r20..r25 and no other field |
| TaskPowerpc64.SaveR26ToR31 | src/arch/powerpc64/task.rs:90-94 | the intended stores at 96..136 set r26..r31 and no other field |
| TaskPowerpc64.Save | src/arch/powerpc64/task.rs:87-113 | the intended save leaves the old context as the saved registers, each in its own field, with pc LR |
| TaskPowerpc64.Load | src/arch/powerpc64/task.rs:118-143 | the intended load takes every register from its own field and branches to the pc field |
| TaskPowerpc64.SwitchContext | src/arch/powerpc64/task.rs:79-151 | the intended `switch_context`: switching a context to itself gives every register back and resumes at LR |
| TaskPowerpc64.Fresh | src/arch/powerpc64/task.rs:54-70 | with the intended switch a fresh task starts with LR its entry point, CR 0 and sp its stack top |
| TaskMips64.Layout | src/arch/mips64/task.rs:10-31 | the `repr(C)` image has eleven slots and reads back as the same context |
| TaskMips64.LayoutOfFromLayout | src/arch/mips64/task.rs:10-31 | every eleven-slot image is the image of the context it holds, so layout and read-back are inverses |
| TaskMips64.New | src/arch/mips64/task.rs:39-52 | a new context has r31 the entry point, r29 the stack top and r16..r23 and r30 all 0 |
| TaskMips64.Save | src/arch/mips64/task.rs:73-85 | the `sd` stores at offsets 0..80 leave the old context holding exactly the saved registers |
| TaskMips64.Load | src/arch/mips64/task.rs:91-106 | the `ld` loads give exactly the registers the new context holds, and the jump target is its r31 |
| TaskMips64.SwitchContext | src/arch/mips64/task.rs:61-113 | the old context becomes the saved registers and the new ones come from the new context; switching a context to itself gives every register back and resumes at r31 |
| TaskOpenrisc64.Layout | src/arch/openrisc64/task.rs:10-32 | the `repr(C)` image has fourteen slots and reads back as the same context |
| TaskOpenrisc64.LayoutOfFromLayout | src/arch/openrisc64/task.rs:10-32 | every fourteen-slot image is the image of the context it holds, so layout and read-back are inverses |
| TaskOpenrisc64.New | src/arch/openrisc64/task.rs:40-53 | a new context has r1, the register the source uses as its link register, the entry point, r2, the register it uses as sp, the stack top, and r9..r20 all 0 |
| TaskOpenrisc64.Save | src/arch/openrisc64/task.rs:74-90 | the `l.sd` stores at offsets 0..104 leave the old context holding exactly the saved registers |
| TaskOpenrisc64.Load | src/arch/openrisc64/task.rs:96-116 | the `l.ld` loads give exactly the registers the new context holds, and the jump target is its r1, the register the source uses as its link register |
| TaskOpenrisc64.SwitchContext | src/arch/openrisc64/task.rs:62-123 | the old context becomes the saved registers and the new ones come from the new context; switching a context to itself gives every register back and resumes at r1, the register the source uses as its link register |
| Console.Piece | src/arch/amd64/console.rs:91-99 | a line feed is sent as CR LF and any other byte as itself |
| Console.TranslatedAppend | src/arch/amd64/console.rs:89-102 | the bytes sent for a concatenation are the bytes sent for each part, in order |
| Console.TranslatedLength | src/arch/amd64/console.rs:89-102 | exactly one extra byte is sent per line feed |
| Console.NoBareLineFeed | src/arch/amd64/console.rs:92-96 | every line feed sent comes right after a carriage return |
| Console.NoLeadingLineFeed | src/arch/amd64/console.rs:91-99 | what is sent never begins with a line feed |
| Console.StripTranslated | src/arch/amd64/console.rs:89-102 | the translation is lossless: turning each CR LF back into LF gives the input string, carriage returns included |
| Console.TransmitEmptyIsBit5 | src/arch/amd64/console.rs:65-72 | the transmitter-empty test is exactly bit 5 of the line-status value |
| Console.Wait | src/arch/amd64/console.rs:77 | the busy wait reads only the line-status register, ends with the first read that reports empty, and uses up exactly one empty report |
| Console.Transmit | src/arch/amd64/console.rs:75-83 | sending n bytes uses up exactly n empty reports |
| Console.TransmitAppendRest | src/arch/amd64/console.rs:89-100 | after sending `a + b` the device is where it is after sending `a` and then `b` |
| Console.TransmitAppend | src/arch/amd64/console.rs:89-100 | sending `a + b` makes the accesses of sending `a` followed by those of sending `b` |
| Console.SendNext | src/arch/amd64/console.rs:90-99 | each input byte adds the accesses of its own piece after those of the bytes before it |
| Console.SendLineFeed | src/arch/amd64/console.rs:93-96 | a line feed is sent as a carriage return followed by a line feed, each after its own wait |
| Console.SendByte | src/arch/amd64/console.rs:75-83 | one byte is one wait followed by one write of that byte to the data register |
| Console.PollStep | src/arch/amd64/console.rs:77 | one poll either ends the wait, when it reports empty, or leaves the rest of the wait to the following values |
| Console.SentTransmit | src/arch/amd64/console.rs:75-83 | the bytes written to the device are exactly the bytes asked for, in order |
| Console.TransmitPolls | src/arch/amd64/console.rs:75-83 | every write goes to the data register right after a line-status read that reported empty |
| Console.DeviceReceives | src/arch/amd64/console.rs:75-102 | the device receives the translation of the string, which strips back to the string, is one byte longer per line feed, and has every byte written right after an empty report |
| Console.TransmitStartsWithRead | src/arch/amd64/console.rs:75-77 | a transmission never writes before it has polled |
| Console.AtBase | src/arch/amd64/console.rs:35-39 | a register sequence becomes one write per register, in order, at the base plus its offset |
| Console.InitProgramsUart | src/arch/amd64/console.rs:41-56 | whatever state the UART was in, `init` leaves divisor 1 (115200 baud), line control 0x03 (8N1, DLAB off), FIFO control 0xC7 and interrupts off |
| ConsoleAmd64.Com1Init | src/arch/amd64/console.rs:41-56 | the six writes of `init` are the UART initialisation sequence placed at COM1's ports (also lines 6-12) |
| ConsoleAmd64.SerialPort.constructor | src/arch/amd64/console.rs:17-20 | the port starts uninitialised with no accesses |
| ConsoleAmd64.SerialPort.PlatformWrite | src/arch/amd64/console.rs:35-39 | one write of the byte to COM1 plus the offset; nothing else changes |
| ConsoleAmd64.SerialPort.Program | src/arch/amd64/console.rs:41-56 | the six register writes are appended, in order |
| ConsoleAmd64.SerialPort.Init | src/arch/amd64/console.rs:28-59 | after `init` the flag is set; the UART is programmed exactly when the flag was clear, and a second call makes no access |
| ConsoleAmd64.SerialPort.IsTransmitEmpty | src/arch/amd64/console.rs:65-72 | one read of port 0x3FD; the answer is true exactly when bit 5 of the value read is set |
| ConsoleAmd64.SerialPort.WriteByte | src/arch/amd64/console.rs:75-83 | the accesses are those of sending the one byte: polls until an empty report, then the write to port 0x3F8 |
| ConsoleAmd64.SerialPort.WriteStr | src/arch/amd64/console.rs:88-103 | the accesses are those of sending the translation of the string, so the device receives it as the Console lemmas state; the result is always `Ok` |
| ConsoleAmd64.SerialPort.WriteNext | src/arch/amd64/console.rs:90-99 | one iteration extends the accesses to those of the first i + 1 input bytes |
| ConsoleAmd64.SerialPort.WritePiece | src/arch/amd64/console.rs:91-99 | the accesses are those of sending the byte's piece: CR then LF for a line feed, the byte otherwise |
| ConsoleArmv9.GetRegisterAddr | src/arch/armv9/console.rs:24-31 | an address exactly when base + offset does not overflow 64 bits, and then it lies `offset` above 0xFE20_1000; otherwise the panic |
| ConsoleArmv9.RegisterAddrs | src/arch/armv9/console.rs:8-12 | the data and line-status offsets have addresses, and distinct offsets give distinct registers |
| ConsoleArmv9.Uart.constructor | src/arch/armv9/console.rs:17-20 | the UART starts uninitialised with no accesses |
| ConsoleArmv9.Uart.Init | src/arch/armv9/console.rs:34-50 | after `init` the flag is set and no register was touched, whether or not it was set before |
| ConsoleArmv9.Uart.IsTransmitEmpty | src/arch/armv9/console.rs:56-66 | one read of the line-status register; true exactly when bit 5 of the value read is set |
| ConsoleArmv9.Uart.WriteByte | src/arch/armv9/console.rs:69-81 | the accesses are those of sending the one byte: polls until an empty report, then the write to the data register |
| ConsoleArmv9.Uart.WriteStr | src/arch/armv9/console.rs:86-99 | the accesses are those of sending the translation of the string, a line feed as CR LF; the result is always `Ok` |
| ConsoleArmv9.Uart.WriteNext | src/arch/armv9/console.rs:87-96 | one iteration extends the accesses to those of the first i + 1 input bytes |
| ConsoleArmv9.Uart.WritePiece | src/arch/armv9/console.rs:88-96 | the accesses are those of sending the byte's piece: CR then LF for a line feed, the byte otherwise |
| ConsoleSparcv9.GetRegisterAddr | src/arch/sparcv9/console.rs:26-31 | an address exactly when base + offset does not overflow 64 bits, and then it lies `offset` above 0xFE00_0000; otherwise the panic |
| ConsoleSparcv9.RegisterAddrs | src/arch/sparcv9/console.rs:8-14 | every register offset has an address, and distinct offsets give distinct registers |
| ConsoleSparcv9.UartInit | src/arch/sparcv9/console.rs:46-60 | the six writes of `init` are the UART initialisation sequence placed at the UART's base |
| ConsoleSparcv9.Uart.constructor | src/arch/sparcv9/console.rs:19-22 | the UART starts uninitialised with no accesses |
| ConsoleSparcv9.Uart.PlatformWrite | src/arch/sparcv9/console.rs:39-41 | one write of the byte to the base plus the offset; nothing else changes |
| ConsoleSparcv9.Uart.Program | src/arch/sparcv9/console.rs:43-60 | the six register writes are appended, in order |
| ConsoleSparcv9.Uart.Init | src/arch/sparcv9/console.rs:34-63 | after `init` the flag is set; the UART is programmed exactly when the flag was clear, and a second call makes no access |
| ConsoleSparcv9.Uart.IsTransmitEmpty | src/arch/sparcv9/console.rs:69-79 | one read of the line-status register; true exactly when bit 5 of the value read is set |
| ConsoleSparcv9.Uart.WriteByte | src/arch/sparcv9/console.rs:82-93 | the accesses are those of sending the one byte: polls until an empty report, then the write to the data register |
| ConsoleSparcv9.Uart.WriteStr | src/arch/sparcv9/console.rs:98-111 | the accesses are those of sending the translation of the string, a line feed as CR LF; the result is always `Ok` |
| ConsoleSparcv9.Uart.WriteNext | src/arch/sparcv9/console.rs:99-108 | one iteration extends the accesses to those of the first i + 1 input bytes |
| ConsoleSparcv9.Uart.WritePiece | src/arch/sparcv9/console.rs:100-108 | the accesses are those of sending the byte's piece: CR then LF for a line feed, the byte otherwise |
| Dtb.SetAddress | src/arch/amd64/dtb.rs:49-55 | a nonzero address replaces the recorded one, 0 leaves the state as it was; the configuration is never touched |
| Dtb.Parsed | src/arch/amd64/dtb.rs:61-93 | after a nonzero address the configuration is the parsed one and the address is unchanged; after 0 the state is unchanged |
| Dtb.ParseResult | src/arch/amd64/dtb.rs:61-64 | an error exactly for address 0, and then `DtbNotFound`; otherwise the parsed configuration |
| Dtb.GetConfig | src/arch/amd64/dtb.rs:96-100 | `Ok` exactly when a configuration is recorded, with that configuration; otherwise `ConfigurationNotParsed` |
| Dtb.ParseThenGet | src/arch/amd64/dtb.rs:61-100 | after a successful parse `get_config` returns what the parse returned, and a second parse of the same address changes nothing |
| Dtb.GetConfigAfterRun | src/arch/amd64/dtb.rs:39-100 | over any sequence of calls from a state with no configuration, `get_config` fails until some `parse_dtb` with a nonzero address and returns the fixed configuration once there has been one |
| Dtb.AddressAfterRun | src/arch/amd64/dtb.rs:49-93 | over any sequence of calls the recorded address is the last nonzero address given to `set_dtb_address`: `parse_dtb` never records its argument |
| Dtb.RunAppend | src/arch/amd64/dtb.rs:44-100 | running one more call applies it to the state the earlier calls reached |
| DtbAmd64.DevicesOutsideRam | src/arch/amd64/dtb.rs:75-86 | the configured RAM fits in 64 bits and no device address of the configuration lies inside it |
| DtbAmd64.ConsoleMatches | src/arch/amd64/dtb.rs:75-78 | the configured console address is the COM1 port 0x3F8 the amd64 console drives |
| DtbAmd64.DtbParser.constructor | src/arch/amd64/dtb.rs:39-42 | `DTB_INFO` starts with address 0 and no configuration |
| DtbAmd64.DtbParser.SetDtbAddress | src/arch/amd64/dtb.rs:49-55 | the state becomes `SetAddress` of the old one: 0 is ignored, any other address recorded, the configuration kept |
| DtbAmd64.DtbParser.ParseDtb | src/arch/amd64/dtb.rs:61-93 | `DtbNotFound` and no change for address 0; otherwise the fixed configuration is recorded and returned; the address is never recorded |
| DtbAmd64.DtbParser.GetConfig | src/arch/amd64/dtb.rs:96-100 | the recorded configuration, or `ConfigurationNotParsed` while there is none |
| DtbArmv9.DevicesOutsideRam | src/arch/armv9/dtb.rs:70-81 | the configured RAM fits in 64 bits and no device address of the configuration lies inside it |
| DtbArmv9.ConsoleMatches | src/arch/armv9/dtb.rs:70-73 | the configured console address is the UART base 0xFE20_1000 the armv9 console drives |
| DtbArmv9.DtbParser.constructor | src/arch/armv9/dtb.rs:40-43 | `DTB_INFO` starts with address 0 and no configuration |
| DtbArmv9.DtbParser.SetDtbAddress | src/arch/armv9/dtb.rs:47-53 | the state becomes `SetAddress` of the old one: 0 is ignored, any other address recorded, the configuration kept |
| DtbArmv9.DtbParser.ParseDtb | src/arch/armv9/dtb.rs:59-88 | `DtbNotFound` and no change for address 0; otherwise the fixed configuration is recorded and returned; the address is never recorded |
| DtbArmv9.DtbParser.GetConfig | src/arch/armv9/dtb.rs:91-95 | the recorded configuration, or `ConfigurationNotParsed` while there is none |
| DtbRv64i.DevicesOutsideRam | src/arch/rv64i/dtb.rs:70-81 | the configured RAM fits in 64 bits and no device address of the configuration lies inside it |
| DtbRv64i.DtbParser.constructor | src/arch/rv64i/dtb.rs:40-43 | `DTB_INFO` starts with address 0 and no configuration |
| DtbRv64i.DtbParser.SetDtbAddress | src/arch/rv64i/dtb.rs:49-55 | the state becomes `SetAddress` of the old one: 0 is ignored, any other address recorded, the configuration kept |
| DtbRv64i.DtbParser.ParseDtb | src/arch/rv64i/dtb.rs:61-88 | `DtbNotFound` and no change for address 0; otherwise the fixed configuration is recorded and returned; the address is never recorded |
| DtbRv64i.DtbParser.GetConfig | src/arch/rv64i/dtb.rs:91-95 | the recorded configuration, or `ConfigurationNotParsed` while there is none |
| DtbLoongarch64.DevicesOutsideRam | src/arch/loongarch64/dtb.rs:66-76 | the configured RAM fits in 64 bits and no device address of the configuration lies inside it |
| DtbLoongarch64.DtbParser.constructor | src/arch/loongarch64/dtb.rs:38-41 | `DTB_INFO` starts with address 0 and no configuration |
| DtbLoongarch64.DtbParser.SetDtbAddress | src/arch/loongarch64/dtb.rs:45-51 | the state becomes `SetAddress` of the old one: 0 is ignored, any other address recorded, the configuration kept |
| DtbLoongarch64.DtbParser.ParseDtb | src/arch/loongarch64/dtb.rs:57-83 | `DtbNotFound` and no change for address 0; otherwise the fixed configuration is recorded and returned; the address is never recorded |
| DtbLoongarch64.DtbParser.GetConfig | src/arch/loongarch64/dtb.rs:86-90 | the recorded configuration, or `ConfigurationNotParsed` while there is none |
| DtbSparcv9.DevicesOutsideRam | src/arch/sparcv9/dtb.rs:68-78 | the configured RAM fits in 64 bits and no device address of the configuration lies inside it |
| DtbSparcv9.ConsoleMatches | src/arch/sparcv9/dtb.rs:68-71 | the configured console address is the UART base 0xFE00_0000 the sparcv9 console drives |
| DtbSparcv9.DtbParser.constructor | src/arch/sparcv9/dtb.rs:38-41 | `DTB_INFO` starts with address 0 and no configuration |
| DtbSparcv9.DtbParser.SetDtbAddress | src/arch/sparcv9/dtb.rs:47-53 | the state becomes `SetAddress` of the old one: 0 is ignored, any other address recorded, the configuration kept |
| DtbSparcv9.DtbParser.ParseDtb | src/arch/sparcv9/dtb.rs:59-85 | `DtbNotFound` and no change for address 0; otherwise the fixed configuration is recorded and returned; the address is never recorded |
| DtbSparcv9.DtbParser.GetConfig | src/arch/sparcv9/dtb.rs:88-92 | the recorded configuration, or `ConfigurationNotParsed` while there is none |
| DtbPowerpc64.DevicesInsideRam | src/arch/powerpc64/dtb.rs:67-77 | the configured RAM fits in 64 bits but spans the whole low 4 GiB, so the console and the interrupt controller both lie inside it |
| DtbPowerpc64.DtbParser.constructor | src/arch/powerpc64/dtb.rs:38-41 | `DTB_INFO` starts with address 0 and no configuration |
| DtbPowerpc64.DtbParser.SetDtbAddress | src/arch/powerpc64/dtb.rs:45-51 | the state becomes `SetAddress` of the old one: 0 is ignored, any other address recorded, the configuration kept |
| DtbPowerpc64.DtbParser.ParseDtb | src/arch/powerpc64/dtb.rs:57-84 | `DtbNotFound` and no change for address 0; otherwise the fixed configuration is recorded and returned; the address is never recorded |
| DtbPowerpc64.DtbParser.GetConfig | src/arch/powerpc64/dtb.rs:87-91 | the recorded configuration, or `ConfigurationNotParsed` while there is none |

## Left out

- `init_exceptions` (amd64 and armv9), `enable_interrupts` (armv9): the `lidt`, `msr VBAR_EL1` and `msr daifclr` instructions are inline assembly; the table contents and the `lidt` operand they load are modelled (`ExceptionAmd64.Idt.Init`, `ExceptionAmd64.LoadIdtPointer`, `ExceptionArmv9.VectorTable.Init`).
- `tlb_write` in `src/arch/openrisc64/mmu.rs` is never called; the look-up base write it performs is `MmuOpenrisc64.SprFile.WriteSpr`.
- `init_exceptions` of loongarch64, mips64, openrisc64, powerpc64, rv64i and sparcv9: the writes of the trap entry address and of the interrupt-enable bits go through inline assembly and are not modelled.
- InterruptAmd64.LineBit: for a line above 15 `1 << (irq_line - 8)` overflows an 8-bit shift; the model takes the shift amount modulo 8, as a release build does, and does not model the panic of a debug build.
- `GicCpuInterface::init`, `get_irq`, `send_eoi` and `init_gic` in `src/arch/armv9/interrupt.rs` are system-register accesses in inline assembly and are not modelled; `set_irq_target` is empty; `read_reg` is never called.
- InterruptArmv9.GicDistributor.EnableIrq, InterruptArmv9.GicDistributor.DisableIrq: for interrupt ids of 1024 and above only the write is stated; the register it lands on is outside the bank the model keeps.
- The per-architecture `driver::handle_irq` called from the interrupt handlers is not part of this model; a handler is modelled by the controller writes around that call.
- InterruptRv64i.Clint.SetNextTimerInterrupt: `current_time + interval` is taken modulo 2^64, as a release build computes it; the overflow panic of a debug build is not modelled.
- InterruptLoongarch64.LineBit, InterruptOpenrisc64.LineBit, InterruptSparcv9.LineBit, ExceptionMips64.ExceptionHandler, ExceptionOpenrisc64.ExceptionHandler, ExceptionPowerpc64.ExceptionHandler, ExceptionRv64i.TrapHandler, ExceptionLoongarch64.ExceptionHandler, ExceptionSparcv9.TrapOffset: these overflow as a release build computes them. The shift `1 << irq_line` takes its amount modulo 32 (modulo 64 on sparcv9). The return-address advance `+= 4` and the product `trap_id * 0x40` wrap modulo 2^64. The panic a debug build raises on each of these overflows is not modelled.
- InterruptRv64i.InitInterrupts: uses the corrected PLIC initialisation, `InterruptRv64i.Plic.Init`, not the one as written.
- MmuSparcv9.MapIdentityPage, MmuSparcv9.MapIdentityRegion, MmuSparcv9.InitMmu, MmuPowerpc64.MapIdentityPage, MmuPowerpc64.MapIdentityRegion, MmuPowerpc64.InitMmu: the boot loops call the corrected `MmuSparcv9.MapPage` (8 KiB index split) and `MmuPowerpc64.MapPage` (all four levels walked), not `map_page`/`get_indices` as written; with those, the identity map these members promise cannot be reached (`MmuSparcv9.AsWrittenIdentityMapImpossible`, `MmuPowerpc64.AsWrittenIdentityMapImpossible`, see Findings).
- TaskAmd64.Save: the old context's rip field is never written by `switch_context`, so a task switched away from resumes at whatever rip it held before; the model states this and does not add the missing store.
- `task_entry` and `initialize_tasking` in each architecture's `task.rs`: a call through a transmuted function pointer, a halt loop and console output; not modelled.
- TaskSparcv9.Save, TaskSparcv9.Load: `std` and `ldd` are modelled as 64-bit stores and loads of one register; SPARC V9 defines them on register pairs. The values of `rd %pc` and `rd %npc` are parameters. The register window (`save`/`restore`) is not modelled.
- TaskPowerpc64.SaveAsWritten, TaskSparcv9.Save: the registers the assembly leaves out behind an "omitted" comment (r16..r30 on PowerPC, g3..g6 on SPARC) are modelled as not saved, as written.
- ConsoleAmd64.SerialPort.WriteByte, ConsoleArmv9.Uart.WriteByte, ConsoleSparcv9.Uart.WriteByte (and the `WriteStr` that call them): the busy wait spins for ever on a device that never reports empty; the model requires that enough empty reports are still to come, so it does not describe a hung console.
- The `serial_print!` and `serial_println!` macros format their arguments with `core::fmt` and are not modelled; the console is modelled from `write_str` down.
- `IS_INITIALIZED` is an `AtomicBool` with acquire/release ordering; it is modelled as a plain field, without concurrency.
- The spin lock in `src/platformgeneric.rs` (lines 72-112) is a concurrency primitive and is not modelled.
- The read and write pointers of `IpcQueue` and the consoles' `IS_INITIALIZED` flags are atomics; they are modelled as ordinary fields of a sequential program, without memory orderings.
- `alloc_page_table` in every mmu file returns the same static buffer on every call. The model replaces it with an allocator that hands out distinct, zeroed, 8 KiB-aligned frames from a free list. So the `map_page` and `setup_initial_paging` models, and their `enable_mmu`/`init_mmu`/`enable_paging` equivalents, require enough free frames. With the single buffer as written, a second intermediate table would overwrite the first; that is not modelled.
- The `jmp`/`br`/`bctr`/`jr` transfer that ends each `switch_context`, and the pops from the real stack, are not modelled. The switch returns the target address and the register file it loads.
- `dump_dtb_header` in each `dtb.rs` reads four words at a raw physical address and prints them; it is not modelled.
- Dtb.DtbError: the parsers return `KernelError::DtbNotFound` and `KernelError::ConfigurationNotParsed`, which the `KernelError` of `src/platformgeneric.rs` does not declare. The model gives them a datatype of their own.
- `InitRd::new` takes a slice produced by `include_bytes!`; the model takes the image as a value.
- Port I/O, MMIO and privileged-register reads and writes (`io.rs`, the `platformmod.rs` accessors and the CSR/CP0/SPR/MSR helpers) are not modelled as instructions. Every register or device word is a field or a parameter, and every access is an entry in an access trace.
- `src/memory/memorylpddr.rs` and the amd64, armv9 and sparcv9 consoles call `PlatformManager::write_byte_from_address`, which the platform does not define. The model takes it to be `write_byte_to_address`.
- The duplicate discriminants of `DescriptorFlags` in `src/arch/armv9/mmu.rs` would not compile. The model keeps the constants as plain values: bit 1 serves both as the table and as the page flag.
- Struct literals in the `task.rs` files that put `..Default::default()` first would not compile. The model reads them as intended: the named fields are set and every other field is 0.
- The time, shutdown, power, panic and security files and `src/platform.rs` are not part of this model. They hold counter reads, firmware calls, halt loops, random-number instructions and architecture selection.
- The boot-entry assembly stubs (the first instructions each architecture runs, before the Rust code) are not part of this model.

## Findings

| source | as written | input that shows it | evidently intended | confidence | as-written member | corrected member |
|---|---|---|---|---|---|---|
| src/arch/sparcv9/mmu.rs:106-122 | `get_indices` shifts by 39, 30 and 21, the 4 KiB split, although pages are 8 KiB | virtual addresses 0 and 8192 get the same index tuple, so the identity map of one page overwrites the other | indices from bits 31..39, 22..30 and 13..21, as the comments describe | not executed | MmuSparcv9.AsWrittenIndicesCollide, MmuSparcv9.AsWrittenIdentityMapImpossible | MmuSparcv9.MapPage |
| src/arch/powerpc64/mmu.rs:143-146 | `map_page` writes the leaf entry into the second-level table at the fourth-level index | pages 0 and 0x20_0000 (2 MiB) use the same slot | walk all four levels and write the leaf in the fourth-level table | not executed | MmuPowerpc64.AsWrittenSlotsCollide, MmuPowerpc64.AsWrittenIdentityMapImpossible | MmuPowerpc64.MapPage |
| src/arch/loongarch64/exception.rs:106-111 | the system-call branch does not advance ERA | any system call returns to the `syscall` instruction and traps again | ERA advanced by 4, as the handler's comment asks | not executed | ExceptionLoongarch64.AsWrittenSyscallRepeats | ExceptionLoongarch64.SyscallAdvances |
| src/arch/rv64i/interrupt.rs:73-75 | the priority loop writes sources 2..256, at offsets 4 * (i + 1) | source 1 keeps priority 0 and can never interrupt; source 256 is written | priority 1 for sources 1..255 | not executed | InterruptRv64i.InitAsWrittenMissesSourceOne | InterruptRv64i.InitCoversSources |
| src/arch/mips64/interrupt.rs:114-142 | every clearing write starts from the Cause value read at entry | IP0 and IP1 both pending and unmasked: the write for IP1 sets IP0 again | each write clears its line in the current Cause value | not executed | InterruptMips64.StaleClearKeepsLineZero | InterruptMips64.IntendedClearsPendingLines |
| src/arch/loongarch64/interrupt.rs:77-79 | `get_irq` returns `31 - leading_zeros`, the highest pending line, although the comment asks for the lowest bit by counting trailing zeros (the openrisc64 and sparcv9 comments at src/arch/openrisc64/interrupt.rs:69-70 and src/arch/sparcv9/interrupt.rs:70-71 ask for the least significant bit too) | lines 1 and 2 pending: line 2 is reported | the lowest pending line, `trailing_zeros` | not executed | InterruptLoongarch64.AsWrittenPicksHighest, InterruptLoongarch64.GetIrqIsHighest | InterruptLoongarch64.GetIrqLowestIsLowest |
| src/arch/openrisc64/mmu.rs:108 | the match value is `virtual_addr \| PAGE_SIZE`, and `PAGE_SIZE` (4096) is bit 12, the lowest bit of the page address, while the loop at lines 142-146 asks for virtual equal to physical | slots 0 and 1 both match virtual page 0x1000 with frames 0 and 0x1000; no slot matches virtual page 0 | the match value is the virtual page address alone | not executed | MmuOpenrisc64.AsWrittenSlotsShareMatch, MmuOpenrisc64.FillVirtualCoverage | MmuOpenrisc64.IntendedFillCoverage |
| src/arch/powerpc64/task.rs:102-113 | the save stores LR at the `cr` offset and CR at the `lr` and `pc` offsets | LR 0x1000 and CR 0x2: the task resumes at 0x2 | LR saved in `lr` and `pc`, CR in `cr` | not executed | TaskPowerpc64.AsWrittenExample, TaskPowerpc64.AsWrittenResumesAtCr | TaskPowerpc64.SwitchContext |

Further discrepancies between the code and its comments or evident purpose are proved about the code as written. They are listed here without a corrected member, because the code does not show what was intended:

- src/memory.rs:39-43: the kernel-text range `0xC000_0000..=0xC100_0000` is inclusive and the task stacks start at `0xC100_0000`, so the last kernel-text byte is the first byte of task 0's stack (Memory.KernelTextMeetsStackZero).
- src/arch/loongarch64/interrupt.rs:73-113: line 0 pending alone gives the same answer as nothing pending, so it never receives an EOI (InterruptLoongarch64.LineZeroLooksIdle).
- src/arch/sparcv9/exception.rs:68-102: 0x60 is not a multiple of 0x40, so no trap id reaches the system-call branch (ExceptionSparcv9.SyscallUnreachable).
- src/arch/mips64/mmu.rs:151-160 and src/arch/openrisc64/mmu.rs:133-143: the fill loops stop after 64 TLB entries, covering 512 KiB and 256 KiB of the 16 MiB they walk (MmuMips64.FillCoverage, MmuOpenrisc64.FillCoverage).
- src/arch/openrisc64/task.rs:62-123: the switch saves r1 as the link register and r2 as the stack pointer, while the OpenRISC calling convention has r1 as the stack pointer and r9 as the link register; the model follows the code (TaskOpenrisc64.SwitchContext).
- src/arch/amd64/task.rs:84-93: the save half never stores rip, so a task switched away from resumes at its old rip (TaskAmd64.Save).
- src/arch/openrisc64/exception.rs:50-65: every value decodes to a named cause, so the `_Unknown` arm is unreachable (ExceptionOpenrisc64.FromCode).
- src/arch/powerpc64/exception.rs:75-83: the system software trap is declared but never classified (ExceptionPowerpc64.Classify).
