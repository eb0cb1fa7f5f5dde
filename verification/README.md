# FermiHV in Dafny

FermiHV is a Type-1 AArch64 hypervisor. This project models its core in Dafny
and proves what that core is for: emulated virtio devices that serve every
request once, tenants that cannot notice each other as long as their descriptors
name their own memory (and exactly what goes wrong when they do not), a world
switch that guests cannot notice, and interrupt, scheduling and bring-up
protocols that hold in every run.

| module | models |
|---|---|
| Words, Bits, HostMemory, HostMachine, VcpuState | machine words, bit operations, host memory as 2^64 bytes with little-endian loads and stores, the trapped-access syndrome |
| Virtqueue, RingBytes | legacy split virtqueue: layout, rings, publication to the used ring; the same in byte addresses and little-endian words |
| BlockSpec, ConsoleSpec | what one notification does, in the order the code reads and writes |
| BlockRefinement, QueueRuns | a batch against a sequential disk; counters and output over whole runs |
| VirtioDevices, VirtioRegisters | the two devices as objects, with their loops and MMIO handlers; what a driver configures and reads |
| Stage2, Stage2Code | level-1 stage-2 tables in host memory, the walk, fault-in |
| DeviceLocality, Tenants, GuestRules, TenantBoot | two VMs on one machine: set-up, noninterference, what a guest must do for it, isolation |
| DiskHistory, HostDisks | disks as histories of writes; the same with the disk arrays in host memory |
| VgicSpec, VgicDevice, ListRegisters | emulated GICv3 registers, SGIs, list registers |
| WorldSwitch | save and restore of vCPU contexts on one processor |
| SmpLoops, TickLoops, RoundRobin | the run loops |
| Vuart, Printers | the emulated PL011 receive path, the number printers |

How the model is set up:

- Device code runs on any memory contents. `BlockSpec.Notify` and
  `ConsoleSpec.Notify` give its exact effect even for rings that overlap their
  own buffers; the objects in `VirtioDevices` are proved to compute them.
- In the source the device records `vc[]` and `vb[]`, disks included, are static
  data in the same host memory. Here the records are held outside the modelled
  memory, so every statement about a device presupposes that no ring or buffer is
  placed on a record. The disks are treated both ways: `BlockSpec` and `Tenants`
  hold them apart, `HostDisks` keeps them in memory, copies byte by byte between
  memory and memory, and proves that under the address rule below the two
  machines do the same.
- The batch theorem needs a guest that follows the virtio rules
  (`BlockRefinement.WellFormed`): queue size dividing 2^16, at most a ring-full
  outstanding, chains inside the table, and buffers apart from the rings, the
  request headers and the used ring.
- Tenant separation needs each notification to stay in the VM's own block
  (`Tenants.Allowed`), because the devices do not check it. `GuestRules` derives
  that from rules on the guest addresses a guest writes into its queue, to be met
  by each tenant running alone. The disk history needs the same rule.
- Where the C code would index outside the disk array its effect is undefined.
  The methods of `VirtioDevices.Block` then return `defined == false`, and their
  contracts say exactly when; a run of tenants is one of defined steps.
- Stage-2 tables are bytes of the same host memory that devices and guests store
  to. That nobody overwrites them in an allowed run is proved, not assumed.
- Apart from these rules guests are arbitrary: any stores, any register accesses,
  any function on the saved context, any sequence of exits.
- Loops without a bound in the source run here against an arbitrary finite
  sequence of exits, so a statement about the end of the sequence is a statement
  about every point of every run. The `guard` counters are dropped, which only
  adds runs.

Where the code falls short of the plain reading, the exact condition is proved
and a concrete case given:

- The block range check multiplies and adds in 64 bits. It decides "fits the
  disk" exactly when the unbounded end of the range does not come back to a disk
  offset modulo 2^64 (`RangeCheckExact`, `RangeCheckFails`). The accepted
  requests whose copy loop leaves the disk array are exactly those whose end,
  from the wrapped offset, passes 2^64 (`StrayExact`); one sector at sector
  2^55 - 1 is one, and none of its bytes is on the disk (`StrayRequest`).
- The devices add the VM's offset to a descriptor's address and check nothing.
  Whatever RAM and devices hold, there are contents of a VM's own block and
  registers with which a notification changes any given byte elsewhere
  (`AddressUnchecked`), be it of a stage-2 table (`TableUnchecked`) or of either
  disk, without any write to that disk (`DiskUnchecked`). For a single
  request the bytes that can change are exactly the status byte and, for a read
  that fits, the data buffer (`SparedExact`). Tenants that follow the rules of
  `GuestRules` are separated (`TenantsSeparate`).
- `stage2_map_1gb` maps a block to itself, and the faulting address translates
  afterwards, exactly for addresses below 2^39 (`MapKeepsIdentity`,
  `FaultInTranslates`, `FaultInFails`).
- `vgic_post_sgi` accepts bits 16..31, `vgic_pop_sgi` never finds them
  (`PopMissesHighBit`). -1 means "nothing pending" exactly for masks that are
  empty or hold an SGI 0..15 (`PopEmptyExact`); all callers mask to 0..15, and
  then every mask is of that kind (`SmpLoops.RunKeeps`).
- A VM other than the last reaches another VM's redistributor entry through any
  frame but its first; the last VM's frames all reach its own (`TargetExact`,
  `SecondFrameIsNeighbour`).
- GICD enable registers are folded modulo 8. A write reaches only interrupts its
  register names exactly when the register number is below 8 or a multiple of 8,
  or the value is 0 (`FoldExact`); writing 2 to ISENABLER9 enables INTID 33
  (`FoldedWrite`).
- The M21 loop gives up a latched tick whenever its VM runs, and loses it exactly
  when the VM has nothing enabled (`DroppingExact`); a run of two passes does so
  (`DroppingLoses`).
- The one-byte receive FIFO loses nothing exactly when every key is loaded before
  the next (`PromptLosesNothing`); two keys in a row lose the first
  (`OverrunLoses`).

## Model

| member | source | states |
|---|---|---|
| BlockRefinement.BatchRefines | src/vvirtio.c:193-243 | for every well-formed queue one run of the request loop has exactly the effect on disk and memory of performing the requests, decoded up front, one by one on a sequential reference disk, and appends exactly their completions to the used ring in available-ring order |
| RingBytes.BatchServesRing | src/vvirtio.c:193-243 | stated on bytes: if the available ring, the descriptors it names and the headers they point to hold the requests rs, little-endian and at the addresses of the legacy layout, a notification leaves disk and memory as the reference machine does after rs |
| RingBytes.CompletionInRing | src/vvirtio.c:234-238 | and the bytes of the k-th used element from the old used index on are the k-th completion's head and length, the used index having advanced by their number |
| RingBytes.DecodedIsThere | src/vvirtio.c:205-217 | a decoded request is the chain whose descriptor bytes (address +0, length +8, next +14) and header bytes are in memory |
| HostMemory.LoadIsWord | src/vvirtio.c:67-85 | a load is the number its bytes spell in base 256, lowest first |
| BlockRefinement.TransferIsPerform | src/vvirtio.c:219-232 | the code's range check, copy loop and status store make the reference machine's step, byte for byte, for every request whose range does not pass 2^64 |
| BlockRefinement.ReadIsPerform | src/vvirtio.c:226-227 | the read loop puts each disk byte at its place in the buffer and touches nothing else but the status |
| BlockRefinement.WriteIsPerform | src/vvirtio.c:223-224 | the write loop puts each buffer byte at its place on the disk; memory gets only the status |
| BlockRefinement.RestWaits | src/vvirtio.c:204-217 | after one request the rest of the batch decodes to the same requests, because the device's stores miss rings and headers |
| BlockRefinement.RejectedChangesNothing | src/vvirtio.c:221-232 | a request outside the disk leaves disk and memory alone but for its status byte, which is 1 |
| BlockRefinement.StatusAfterBatch | src/vvirtio.c:219-232 | after a whole batch each status byte is 0 exactly when its request fitted, unless a later request stores over it |
| BlockRefinement.WriteThenRead | src/vvirtio.c:222-228 | sectors written and read back arrive as they were sent |
| BlockSpec.RangeCheckExact | src/vvirtio.c:220-221 | the 64-bit check decides "fits" if and only if the unbounded end does not come back to a disk offset modulo 2^64 |
| BlockSpec.RangeCheckFails | src/vvirtio.c:220-221 | sector 2^55 is accepted as sector 0 |
| BlockSpec.StrayExact | src/vvirtio.c:220-227 | an accepted request's copy loop indexes outside the disk array if and only if its end, from the wrapped offset, passes 2^64 |
| BlockSpec.StrayRequest | src/vvirtio.c:220-227 | one sector at sector 2^55 - 1 is accepted and none of its 512 bytes is on the disk |
| Virtqueue.PublishEffect | src/vvirtio.c:80-84 | a publication writes the element the used index selects and the index, and changes no other element, flag or memory |
| Virtqueue.FirstSlotFresh | src/vvirtio.c:81 | up to a ring-full of publications never reuses a slot, also across the 16-bit wrap |
| Virtqueue.AppendedCons | src/vvirtio.c:234-239 | completions of one batch sit in consecutive slots and do not overwrite each other |
| Virtqueue.Queue.LayoutDisjoint | src/vvirtio.c:65-69 | descriptor table, available ring and used ring of a laid-out queue do not overlap and the used ring is page-aligned |
| ConsoleSpec.DrainRefines | src/vvirtio.c:72-87 | the transmit loop prints the concatenation of the waiting payloads, appends their heads in order, and changes no memory but the used ring |
| RingBytes.DrainServesRing | src/vvirtio.c:60-92 | stated on bytes: a notification prints exactly the buffers whose descriptors the available ring names, in its order, and returns their heads |
| QueueRuns.NotifyIsKick | src/vvirtio.c:196-204 | for a well-formed queue QueueNotify of a ready block device is one such batch and never strays off the disk |
| QueueRuns.NotifyIsConsoleKick | src/vvirtio.c:63-92 | QueueNotify of a ready console is one such drain and raises the interrupt exactly if something was waiting |
| QueueRuns.BlockRunBalanced | src/vvirtio.c:204-242 | over any run of notifications, guest updates, interrupt acknowledgements and other register writes, used index and available counter advance by exactly the number of chains served, so their distance is constant |
| QueueRuns.BlockRunExactlyOnce | src/vvirtio.c:204-242 | the j-th chain served in such a run is the one whose number the bytes of the ring entry of the j-th available counter hold; that number, and the length in the descriptor chained to it, are the bytes of the used element of the j-th used counter |
| QueueRuns.ConsoleRunBalanced | src/vvirtio.c:72-91 | the same for the console, whose output over the run is exactly the payloads made available, once each and in order |
| QueueRuns.ConsoleRunExactlyOnce | src/vvirtio.c:72-87 | the same for the buffers of a console run, with length 0 |
| VirtioDevices.Console.ProcessTx | src/vvirtio.c:60-92 | computes ConsoleSpec.Notify, for any contents of the modelled memory |
| VirtioDevices.Console.DrainRing | src/vvirtio.c:72-87 | the loop, in terms of ConsoleSpec.Drain; terminates within 65535 rounds, as the device record is out of its reach |
| VirtioDevices.Console.EmitBuffer | src/vvirtio.c:73-84 | one buffer printed byte by byte and published |
| VirtioDevices.Console.Mmio | src/vvirtio.c:94-134 | register reads and writes, notification, register result and PC step; an undecodable access only steps the PC |
| VirtioDevices.Console.TakeIrq | src/vvirtio.c:50-56 | reports a raised interrupt once |
| VirtioDevices.Block.Process | src/vvirtio.c:193-243 | has a defined effect exactly when no pending request strays off the disk array, and then computes BlockSpec.Notify on disk array and memory |
| VirtioDevices.Block.ServeRing | src/vvirtio.c:204-242 | the loop, in terms of BlockSpec.Batch, defined exactly when no request it meets strays |
| VirtioDevices.Block.TransferData | src/vvirtio.c:219-232 | range check, copy and status on the disk array; defined exactly for requests that do not stray |
| VirtioDevices.Block.CopyToDisk | src/vvirtio.c:223-224 | splices the buffer into the disk array in place, or meets an index outside it |
| VirtioDevices.Block.CopyToMemory | src/vvirtio.c:226-227 | stores the sectors one byte after the other, or meets an index outside the array |
| VirtioDevices.Block.Mmio | src/vvirtio.c:245-283 | as the console's handler, with the capacity registers; undefined exactly for a notification with a stray request pending |
| VirtioDevices.Block.Reset | src/vvirtio.c:161-169 | all registers at reset values and the whole disk zero |
| VirtioDevices.Block.Peek | src/vvirtio.c:182-185 | the first bytes of the disk |
| VirtioDevices.Block.Poke | src/vvirtio.c:188-191 | overwrites the first bytes, nothing else |
| VirtioRegisters.ConsoleHolds | src/vvirtio.c:105-115 | over any register writes, page size, queue size, queue page and status are the latest value written to 0x28, 0x38, 0x40 and 0x70, an interrupt status bit stays until written to 0x64, and nothing else changes |
| VirtioRegisters.BlockHolds | src/vvirtio.c:252-262 | the same for the block device, whose disk no register write changes |
| VirtioRegisters.ConsoleReads | src/vvirtio.c:116-132 | what a driver reads after them: latest queue page and status, unacknowledged interrupt bits, and the identity of a legacy console |
| VirtioRegisters.BlockReads | src/vvirtio.c:263-281 | the same, with the identity of a block device and the capacity of exactly its disk |
| VirtioRegisters.BlockRaises | src/vvirtio.c:239-241 | whatever memory holds, a notification sets bit 0 of the interrupt status and raises the interrupt exactly if the index in the available ring is not the device's position, and changes no other bit |
| VirtioRegisters.ConsoleRaises | src/vvirtio.c:88-91 | the same for the console |
| VcpuState.SyndromeExact | src/vdev.c:70-92 | the syndrome's fields: valid is bit 24, size bits 23:22, register bits 20:16, write bit 6 |
| VcpuState.LoadThenStore | src/vdev.c:95-102 | register 31 reads zero and cannot be loaded, the others store what was loaded |
| HostDisks.BatchReplays | src/vvirtio.c:219-230 | a batch that keeps to its block changes the disk array in host memory by replaying its accepted writes and in no other way |
| DiskHistory.ReplayIsLatest | src/vvirtio.c:222-224 | each byte of a replayed disk is that of the latest write covering it, or of the seed |
| HostDisks.RunReadsLatest | src/vvirtio.c:225-228 | at any point of any run that keeps to the blocks, an accepted read served by a notification gets, in each buffer byte, the latest of its owner's writes to that position: those of the run so far and of the batch before it, or else what the array held at the start |
| HostDisks.DiskIsOwnHistory | src/vcpu.c:1691-1750 | after any interleaving of two tenants that keep to their blocks, the bytes of a disk array are those at the start with its owner's successful writes replayed |
| HostDisks.RunsAlone | src/vcpu.c:1691-1750 | with the disks in host memory, such tenants end with the RAM, devices, disk array, output and history they would have alone |
| HostDisks.RunSim | src/vvirtio.c:147-154 | the machine with disks in memory and the one with disks apart do the same, step by step, in every such run, and make the same writes |
| HostDisks.RunsAllowed | src/vvirtio.c:147-154 | a run keeps to the blocks in one machine if and only if it does in the other |
| HostDisks.RulesKeepDisks | src/vcpu.c:1691-1750 | tenants that each follow the rules running alone keep to their blocks in every interleaving, disks in memory |
| HostDisks.DiskUnchecked | src/vvirtio.c:208-232 | in every state, for every byte of either disk, some contents of a VM's own RAM and registers make its notification change that byte although nobody writes to that disk |
| DiskHistory.HistoryAlone | src/vcpu.c:1691-1750 | a tenant's history of writes is the one it would have made running alone |
| DeviceLocality.BatchLocal | src/vvirtio.c:193-243 | a block batch whose addresses lie in one block depends on that block only and changes that block only, however its buffers overlap |
| DeviceLocality.ConsoleLocal | src/vvirtio.c:60-92 | the same for the console |
| Tenants.ActLocal | src/vcpu.c:1656-1677 | a tenant's store, register write or notification depends on its own view and changes its own block only |
| Tenants.StoreReaches | src/stage2.c:75-91 | a guest store changes exactly the host byte its address stands for in the VM's block, or nothing |
| Tenants.RegisterReaches | src/vvirtio.c:105-115 | a register write configures the writer's own device and changes nothing else |
| GuestRules.KickPrints | src/vvirtio.c:60-92 | a console notification by the rules prints the waiting payloads |
| GuestRules.KickPerforms | src/vvirtio.c:193-243 | a block notification by the rules leaves the tenant's disk as the reference machine does |
| Tenants.RunKeepsTables | src/vcpu.c:1691-1750 | over any allowed run of both tenants the stage-2 tables in memory stay exactly as built and the offsets as set |
| Tenants.RunsAlone | src/vcpu.c:1627-1750 | noninterference: after any allowed interleaving each tenant's RAM, device state, disk and output are those of running its own actions alone |
| Tenants.AloneSuffices | src/vcpu.c:1627-1750 | if each tenant running alone keeps to its block, every interleaving of the two does |
| GuestRules.TenantsSeparate | src/vcpu.c:1627-1750 | if each tenant running alone follows the rules on guest addresses whenever it notifies, every interleaving leaves each with what it had alone and the tables as built |
| GuestRules.BlockRulesInside | src/vvirtio.c:193-217 | a queue in the guest block and descriptors for ranges of the guest block, by the virtio rules, make the block device touch the host block only |
| GuestRules.ConsoleRulesInside | src/vvirtio.c:60-84 | the same for the console |
| GuestRules.SparedExact | src/vvirtio.c:219-232 | serving a request can change a byte outside queue and header if and only if it is the status byte or, for a read that fits, in the data buffer |
| GuestRules.AddressUnchecked | src/vvirtio.c:208-232 | in every state, for every byte outside a VM's block, some contents of its own RAM and registers make its notification change that byte |
| GuestRules.TableUnchecked | src/vvirtio.c:208-232 | in every state some contents of a VM's own RAM and registers make its notification change a stage-2 table |
| Tenants.OtherUnchanged | src/vcpu.c:1716-1750 | no action of one tenant changes the other's RAM block, devices, disk or output |
| Tenants.RunIsolated | src/stage2.c:75-91 | after any run no host address is reachable from both tables and exactly the addresses of the VM's block translate |
| TenantBoot.Boot | src/vcpu.c:1691-1712 | reset, both table builds and both offsets, from any memory, establish the invariant those runs start from |
| Stage2.VmWalk | src/stage2.c:82-91 | the built table translates its own block to the host block and traps every other address |
| Stage2.DescriptorFields | src/stage2.c:18-38 | the attribute fields of a Normal and of a Device block: type, memory attributes, access, shareability, access flag, and the address above them |
| Stage2.OffsetIsWalk | src/vvirtio.c:62-76 | adding the device offset modulo 2^64 is the walk, for every address of the block and every aligned pair of blocks |
| Stage2.QueueIsWalk | src/vvirtio.c:195-201 | the rings computed from the translated base are the translations of the guest's own rings and lie in the host block |
| Stage2.VmsDisjoint | src/stage2.c:75-91 | two VMs on different blocks share no host address, whatever they access |
| Stage2.WindowsTrap | src/vcpu.c:473-475 | every emulated GIC, UART and virtio window traps |
| Stage2.MapKeepsIdentity | src/stage2.c:36-38 | mapping keeps the global table an identity table if and only if the address is below 2^39 |
| Stage2.FaultInTranslates | src/vcpu.c:144-150 | the faulting address translates to itself after handling if and only if it is below 2^39 |
| Stage2.FaultInFails | src/stage2.c:36-38 | address 2^39 is mapped over entry 0 and still faults |
| Stage2.MapAllMeaning | src/stage2.c:36-73 | after any sequence of mappings each entry is the identity block with the attributes last asked for, or untouched |
| Stage2.FaultRunProgress | src/vcpu.c:144-150 | each fault-in of a run uses up one unmapped block and keeps the identity table |
| Stage2.FaultBound | src/stage2.c:47-53 | after stage2_init a run takes at most 511 faults |
| Stage2Code.Tables.Clear | src/stage2.c:83-84 | the clearing loop zeroes all 512 entries and no other memory |
| Stage2Code.Tables.Map1Gb | src/stage2.c:36-38 | sets exactly one entry of the table in memory |
| Stage2Code.Tables.Init | src/stage2.c:47-53 | leaves the table with block 1 mapped and nothing else |
| Stage2Code.Tables.BuildVm | src/stage2.c:82-91 | leaves exactly the VM's mapping, and returns table address and VMID in their fields |
| VgicSpec.EnableIsLastTouch | src/vgic.c:89-136 | after any trace of accesses an interrupt is enabled exactly when the latest set or clear write touching its bit was a set |
| VgicSpec.WriteTouches | src/vgic.c:89-112 | one write's effect on one interrupt line, for every line and every address |
| VgicSpec.EnabledSinceReset | src/vgic.c:30-112 | from reset, enabled means the latest write touching the line was a set |
| VgicSpec.PrivateTouch | src/vgic.c:89-103 | with addresses written out: ISENABLER0 and ICENABLER0 of frame f touch exactly the private interrupts whose bits are on, of entry min(vm + f, 3) |
| VgicSpec.SharedTouch | src/vgic.c:104-111 | ISENABLER<k> and ICENABLER<k> touch exactly INTID 32 (k mod 8) + b for the bits b that are on |
| VgicSpec.ReadsPrivate | src/vgic.c:53-70 | over any trace from reset, bit n read at ISENABLER0 of a frame is on exactly when the latest write touching that interrupt was a set |
| VgicSpec.ReadsShared | src/vgic.c:73-86 | the same for ISENABLER<n> and ICENABLER<n> of the distributor, INTID 32..255 |
| VgicSpec.ReadsBack | src/vgic.c:68-75 | IGROUPR0 and GICD_CTLR read back the latest value written to them |
| VgicSpec.TyperExact | src/vgic.c:63-65 | GICR_TYPER carries the frame number, and its Last bit exactly for frame ngicr - 1 |
| VgicSpec.FrameIdentity | src/vgic.c:62-67 | affinity, wake state and architecture version of a frame |
| VgicSpec.DistributorExact | src/vgic.c:76-78 | the distributor reports version 3, 256 interrupts, 10-bit numbers |
| VgicSpec.WideStore | src/vgic.c:123-127 | a 64-bit store enables INTID 32 k + b for exactly the bits b of its value, low word first |
| VgicSpec.FoldExact | src/vgic.c:107-111 | a distributor enable write reaches only interrupts its register names if and only if the register number is below 8 or a multiple of 8, or the value is 0 |
| VgicSpec.FoldedWrite | src/vgic.c:107-108 | writing 2 to ISENABLER9, which names INTID 289, enables INTID 33 |
| VgicSpec.PartsIndependent | src/vgic.c:53-112 | each redistributor entry and each distributor is what the writes addressed to it alone make of it |
| VgicSpec.TenantReadsAlone | src/vgic.c:53-136 | tenants that use their distributor and first frame read, after any interleaving, what they would read alone |
| VgicSpec.TargetExact | src/vgic.c:92-95 | a VM reaches its own redistributor entry exactly through frame 0, or, the last VM, through any frame; for VM 0 frame f is entry f |
| VgicSpec.SecondFrameIsNeighbour | src/vgic.c:92-98 | through its second frame VM 0 enables an interrupt of VM 1 |
| VgicSpec.PopExact | src/vgic.c:144-154 | a pop returns the lowest pending SGI and removes exactly it |
| VgicSpec.PopEmptyExact | src/vgic.c:144-154 | -1 is returned exactly when nothing is pending, if and only if the mask is empty or holds an SGI 0..15 |
| VgicSpec.PopMissesHighBit | src/vgic.c:138-154 | a pending bit 16 is reported as nothing pending |
| VgicSpec.DrainedInOrder | src/vgic.c:144-154 | repeated pops deliver the pending SGIs in ascending order, each once, and then nothing |
| VgicSpec.PostEffect | src/vgic.c:138-142 | a post reaches every vCPU but the sender, adds nothing else, and keeps masks to SGIs 0..15 |
| VgicDevice.Vgic.RegWrite | src/vgic.c:89-112 | the in-place register write, always inside the bank |
| VgicDevice.Vgic.Mmio | src/vgic.c:114-136 | 32- and 64-bit accesses, register result and PC step |
| VgicDevice.Vgic.Reset | src/vgic.c:30-40 | all registers and masks zero, one frame presented |
| VgicDevice.Vgic.PostSgi | src/vgic.c:138-142 | the posting loop |
| VgicDevice.Vgic.PopSgi | src/vgic.c:144-154 | the scan, also for vCPU numbers outside the array |
| ListRegisters.InjectEffect | src/vcpu.c:205-217 | injection alters at most one register, an idle one; the interrupt is queued afterwards unless four others are; uniqueness survives |
| ListRegisters.PlacedIsPending | src/vcpu.c:206 | the word placed: state pending (01), group 1, no hardware link, priority 0, the number asked for |
| ListRegisters.PendingStays | src/vcpu.c:205-217 | over any run a placed interrupt stays pending until the guest moves its state |
| ListRegisters.AlwaysFormed | src/vcpu.c:73-111 | in every run from vcpu_init all busy registers are group 1, without hardware link, of priority 0 |
| ListRegisters.InjectKeepsOthers | src/vcpu.c:205-217 | no other interrupt is gained or lost |
| ListRegisters.AlwaysUnique | src/vcpu.c:73-111 | in every run from vcpu_init no two busy registers hold the same interrupt |
| ListRegisters.InjectInto | src/vcpu.c:205-217 | the scan over the four saved registers |
| WorldSwitch.RunOnce | src/vcpu.c:88-111 | whatever the processor held, the guest runs on exactly its saved context, exactly what it leaves is saved, and the EL2 stack pointer and x19..x30 come back |
| WorldSwitch.Schedule | src/vcpu.c:88-159 | for every interleaving, guest behaviour and hypervisor edit, each vCPU's context is the one it would have alone |
| WorldSwitch.AloneIsOwn | src/vcpu.c:88-111 | that context depends on the vCPU's own actions only |
| WorldSwitch.GuestEnter | src/world.S:23-86 | loads exactly the saved registers and leaves the caller's frame on the EL2 stack |
| WorldSwitch.VectorStub | src/vectors.S:28-36 | saves x0 and x1 below the frame without disturbing it, and puts the vCPU's address and the vector in their place |
| WorldSwitch.GuestExit | src/world.S:92-163 | saves exactly the guest's registers and syndrome and restores the caller's |
| WorldSwitch.SaveEl1 | src/vcpu.c:32-50 | saves all seventeen EL1 registers |
| WorldSwitch.RestoreEl1 | src/vcpu.c:52-71 | restores all seventeen |
| WorldSwitch.Vcpu.constructor | src/vcpu.c:73-86 | the initial context: entry point, stack, masked EL1h, reset SCTLR, all else zero |
| WorldSwitch.StartSecondary | src/vcpu.c:1131-1132 | that context with the CPU_ON argument in x0, as vCPU 1 |
| SmpLoops.RunKeeps | src/vcpu.c:1125-1202 | in every run: a vCPU's list registers hold different interrupts, each placed for it by the loop; a timer or UART interrupt was placed only when the latest of the guest's GIC writes to touch its enable bit had set it; exactly the SGIs sent to a vCPU and not yet taken are pending, all 0..15; the second vCPU never runs before it is up, is initialised at most once and with the arguments of the latest CPU_ON |
| SmpLoops.TickDelivered | src/vcpu.c:1158-1165 | in any state of any Linux run, a tick leaves 30, or else 27, queued for the vCPU that ran, if its own writes have enabled it, unless four registers hold others; no other interrupt and no register of the other vCPU changes; with neither enabled none changes |
| SmpLoops.KeyDelivered | src/vcpu.c:1138-1143 | a key typed is in the FIFO, and 33 is queued for vCPU 0 when next entered, or four registers hold others, if the guest's mask and writes have enabled it |
| SmpLoops.SwitchExact | src/vcpu.c:1166-1167 | a pass switches vCPUs exactly when a tick ended it and the second vCPU is up |
| SmpLoops.SgiNumber | src/vcpu.c:1182-1189 | a write to ICC_SGI1R posts the SGI numbered by bits 27:24, to every vCPU but the writer |
| SmpLoops.SgiOnlyBy | src/vcpu.c:1154-1201 | no other exit posts an SGI |
| SmpLoops.StoreEnables | src/vcpu.c:1176-1177 | the guest's stores through frame f enable the private interrupts of vCPU f |
| SmpLoops.StoreEnablesUart | src/vcpu.c:1176-1177 | its stores to bit 1 of ISENABLER1 enable INTID 33 |
| SmpLoops.EntryThenGuest | src/vcpu.c:1150-1151 | the guest moves the registers of the vCPU that runs and no others |
| SmpLoops.CpuOnStarts | src/vcpu.c:704-710 | CPU_ON (0xC4000003 or 0x84000003) while the second vCPU is down has it up by the end of the next pass, with the call's entry point and context and idle list registers |
| SmpLoops.OffEnds | src/vcpu.c:696-703 | SYSTEM_OFF and SYSTEM_RESET halt the caller, and the Linux loop ends when it would run it again |
| SmpLoops.UartFollows | src/vcpu.c:1138-1179 | over any run the emulated UART is what the keys typed and the guest's accesses have made of it |
| SmpLoops.BootFixed | src/vcpu.c:1130-1137 | over any run, once up the second vCPU stays up and is never initialised again |
| SmpLoops.SgiFate | src/vcpu.c:1145-1148 | a popped SGI ends in a list register, merges with the same one queued, or meets four registers busy with others |
| SmpLoops.Loop.StartSecondary | src/vcpu.c:1129-1134 | the vCPU a pending CPU_ON starts has the initial context for its entry point with its context argument in x0 |
| SmpLoops.Loop.Run | src/vcpu.c:1332-1384 | the loops, pass by pass, for any sequence of exits |
| SmpLoops.Loop.Enter | src/vcpu.c:1129-1150 | bring-up, key, SGI delivery and guest run, in this order |
| SmpLoops.Loop.Handle | src/vcpu.c:1154-1201 | the dispatch on the exit |
| TickLoops.RunKeeps | src/vcpu.c:564-602 | in every run of every policy: ticks handed out plus the latched one never exceed ticks seen; every interrupt in a VM's list registers was placed for it, one per tick, at a moment when the latest GIC write to touch its enable bit had set it; the tick count determines who runs, and VM 1 gets its share; list registers stay unique |
| TickLoops.LatchPersists | src/vcpu.c:568-582 | under a latching policy, over any run, a latched tick stays latched while its VM does not start a pass with the interrupt enabled, and a tick is handed over if and only if the VM does |
| TickLoops.LatchHandedOver | src/vcpu.c:1022-1025 | a tick given up by a latching loop is queued for its VM, unless four registers are busy |
| TickLoops.TickLatches | src/vcpu.c:579-583 | every tick is latched for both VMs |
| TickLoops.TickHandedAs | src/vcpu.c:1018-1025 | as what a latched tick reaches the VM: 27 when alternating; 30 for VM 0 and 27 for VM 1 when weighted; 30 or else 27 in the M21 loop; each if the VM's writes have enabled it, and otherwise no register changes |
| TickLoops.DroppingExact | src/vcpu.c:1257-1263 | the M21 loop gives up a latched tick whenever its VM runs, and loses it if and only if the VM has nothing enabled |
| TickLoops.DroppingLoses | src/vcpu.c:1257-1276 | after one tick and one pass VM 0's tick is neither latched nor handed over; a latching loop still has it |
| TickLoops.WeightedShare | src/vcpu.c:1276-1277 | n ticks select VM 1 exactly n/4 times, any four consecutive ones exactly once |
| TickLoops.Loop.Run | src/vcpu.c:1019-1066 | the loops, pass by pass, for any sequence of exits |
| TickLoops.Loop.Deliver | src/vcpu.c:1257-1263 | the delivery step of the three policies |
| TickLoops.Loop.Handle | src/vcpu.c:576-585 | the tick latch and the switch |
| RoundRobin.RunVcpus | src/vcpu.c:125-159 | for any number of live vCPUs, budget and exits: the exits are handled in order, each by the next vCPU in cyclic order that has not stopped; a vCPU is halted exactly when it used up its budget (at least 1) or crashed; the active count is the number of live vCPUs, two live vCPUs have run equally often give or take one; the loop ends exactly when none is live |
| RoundRobin.FairStep | src/vcpu.c:132-156 | one slice keeps that bookkeeping |
| Vuart.ReceivedInTime | src/vdev.c:22-46 | over any trace the values the data register returns while RXFE is clear are exactly the keys loaded before the next one, once each and in order |
| Vuart.ReceivedSubsequence | src/vdev.c:22-46 | what the guest receives from an empty FIFO is a subsequence of what was typed |
| Vuart.PromptLosesNothing | src/vdev.c:22-46 | it receives everything typed if and only if each key is loaded before the next |
| Vuart.OverrunLoses | src/vdev.c:22-46 | of two keys in a row the first is lost |
| Vuart.FlagsAgree | src/vdev.c:28-52 | RXFE, RIS, MIS and the interrupt query describe the same FIFO |
| Vuart.RegistersExact | src/vdev.c:28-52 | over any trace the data register reads the key that waits or 0, the mask register the latest value stored modulo 2^32, and the interrupt is asserted exactly when a key waits and bit 4 of that mask is set |
| Vuart.Identification | src/vdev.c:53-65 | the identification registers spell peripheral 0x00141011 and cell 0xB105F00D |
| Vuart.Device.PushRx | src/vdev.c:22-24 | a key replaces whatever the FIFO held |
| Vuart.Device.RxIrqPending | src/vdev.c:27-29 | the interrupt query, on the code's own -1 for an empty FIFO |
| Vuart.Device.ReadReg | src/vdev.c:41-67 | every register, and the data register empties the FIFO |
| Vuart.Device.Emulate | src/vdev.c:77-105 | trapped accesses: device effect, register result, PC step |
| Printers.PutDec | src/uart.c:57-70 | at most 20 digits, no leading zero, and reading them back gives the number |
| Printers.PutHex | src/uart.c:45-55 | the prefix, 1 to 16 digits, no leading zero, and reading them back gives the number |
| Printers.NumeralUnique | src/uart.c:45-70 | a number has only one numeral, so the printers' output is determined |

## Left out

- Real GIC bring-up and the EL2 timer (src/gic.c, src/timer.c): hardware programming; a tick is an event here.
- Barriers, TLB and cache maintenance, memory ordering: the model is sequential, on one core.
- Host memory is 2^64 plain bytes; holes and device registers in the host map are not modelled.
- Stage-2 descriptors: the walk checks the descriptor type and the output size, not access permissions or memory types; `& ~mask` and `|` of attributes are written as the additions they amount to.
- Boot code, linking, image and DTB loading, logging and `uart_printf`.
- EL1 registers the code does not save (they are shared between vCPUs in the source too) and guest memory inside the world switch.
- `vcpu_init` clears the record word by word; here the fields are initialised directly.
- The PSCI result registers, `cntp_emulate` and `mmio_zero`: each sets one guest register or steps the PC, which the world switch covers as a hypervisor edit of the saved context.
- The single-VM demo loops and `smp_sched_demo`: special cases of the loops modelled, without bring-up or latching.
- The real PL011 (`uart_putc` polling): output is an appended byte sequence.
- Tenants.RunsAlone: holds for notifications that stay in the VM's block; without that it is false (GuestRules.AddressUnchecked).
- Tenants.ActLocal: the same condition, for the same reason.
- Tenants.OtherUnchanged: the same condition, for the same reason.
- Tenants.RunKeepsTables: the same condition; without it a table can change (GuestRules.TableUnchecked).
- Tenants.RunIsolated: the same condition, since it speaks of the tables in memory.
- DeviceLocality.BatchLocal: the same condition, stated of one batch.
- DeviceLocality.ConsoleLocal: the same condition, stated of one drain.
- DiskHistory.HistoryAlone: the same condition, since a tenant's RAM decides what it writes to its disk.
- HostDisks.BatchReplays: the same condition, stated of one batch; without it a disk can change in another way (HostDisks.DiskUnchecked).
- HostDisks.DiskIsOwnHistory: the same condition, for that reason.
- HostDisks.RunReadsLatest: the same condition, for that reason.
- HostDisks.RunsAlone: the same condition, for that reason.
- Runs in which a request strays off its disk array have no defined effect in C and are not followed further.
- Descriptors that point at the device records `vc[]` and `vb[]` themselves: the records are outside the modelled memory, except for the disks.
