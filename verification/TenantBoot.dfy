/** The set-up the multi-tenant demos share: reset the devices, build both tables, set both offsets. */
module TenantBoot {
  import opened Words
  import opened HostMemory
  import opened Stage2
  import opened Stage2Code
  import opened VirtioDevices
  import opened Tenants
  import B = BlockSpec

  /** One VM's devices, reset and given their offset. */
  method BootDevices(con: Console, blk: Block, off: u64)
    requires blk.Valid()
    modifies con, blk, blk.disk
    ensures con.State().hostOff == off && blk.State().hostOff == off
    ensures blk.State().disk == seq(B.DISK_SIZE, i => 0)
  {
    con.Reset();
    blk.Reset();
    con.SetOffset(off);
    blk.SetOffset(off);
  }

  /** From any memory and device contents, set-up establishes the invariant every run keeps. */
  method Boot(tables: Tables, p: Placement, con0: Console, blk0: Block, con1: Console, blk1: Block)
    requires tables.Valid() && p.Valid() && p.tb == tables.vm
    requires tables.vm[0] + 8 * ENTRIES <= tables.vm[1] < 0x1_0000_0000_0000
    requires con0 != con1 && blk0 != blk1 && blk0.disk != blk1.disk && blk0.Valid() && blk1.Valid()
    modifies tables.host`mem, con0, con1, blk0, blk0.disk, blk1, blk1.disk
    ensures Inv(p, System(tables.host.mem, [Vm(con0.State(), blk0.State(), []), Vm(con1.State(), blk1.State(), [])]))
    ensures blk0.State().disk == blk1.State().disk == seq(B.DISK_SIZE, i => 0)
  {
    BootDevices(con0, blk0, Wrap(p.pa[0] - p.ipa));
    BootDevices(con1, blk1, Wrap(p.pa[1] - p.ipa));
    BuildBoth(tables, p);
    Establish(p, tables.host.mem, Vm(con0.State(), blk0.State(), []), Vm(con1.State(), blk1.State(), []));
  }

  lemma Establish(p: Placement, m: Mem, a: Vm, b: Vm)
    requires p.Valid() && TableAt(m, p.tb[0]) == VmTable(p.ipa, p.pa[0]) && TableAt(m, p.tb[1]) == VmTable(p.ipa, p.pa[1])
    requires a.con.hostOff == a.blk.hostOff == p.Offset(0) && b.con.hostOff == b.blk.hostOff == p.Offset(1)
    ensures Inv(p, System(m, [a, b]))
  {
  }

  method BuildBoth(tables: Tables, p: Placement)
    requires tables.Valid() && p.Valid() && p.tb == tables.vm
    requires tables.vm[0] + 8 * ENTRIES <= tables.vm[1] < 0x1_0000_0000_0000
    modifies tables.host`mem
    ensures TableAt(tables.host.mem, p.tb[0]) == VmTable(p.ipa, p.pa[0])
    ensures TableAt(tables.host.mem, p.tb[1]) == VmTable(p.ipa, p.pa[1])
  {
    var vttbr0 := tables.BuildVm(0, p.ipa, p.pa[0], 1);
    ghost var mid := tables.host.mem;
    var vttbr1 := tables.BuildVm(1, p.ipa, p.pa[1], 2);
    TableSame(mid, tables.host.mem, p.tb[0]);
  }
}
