/** stage2.c: the loops that clear a table and the stores that fill it, proved against Stage2. */
module Stage2Code {
  import opened Words
  import opened HostMemory
  import opened HostMachine
  import opened Stage2

  /** Where the linker put s2_l1 and the two s2_vm tables. */
  class Tables {
    const host: Host
    const l1: u64
    const vm: seq<u64>

    constructor (host: Host, l1: u64, vm: seq<u64>)
      requires TablePlace(l1) && |vm| == 2 && TablePlace(vm[0]) && TablePlace(vm[1])
      ensures this.host == host && this.l1 == l1 && this.vm == vm && Valid()
    {
      this.host, this.l1, this.vm := host, l1, vm;
    }

    ghost predicate Valid() { TablePlace(l1) && |vm| == 2 && TablePlace(vm[0]) && TablePlace(vm[1]) }

    /** The loop that zeroes all entries of one table. */
    method Clear(tb: u64)
      requires TablePlace(tb)
      modifies host`mem
      ensures TableAt(host.mem, tb) == EmptyTable() && SameBut(old(host.mem), host.mem, tb, 8 * ENTRIES)
    {
      for i := 0 to ENTRIES
        invariant SameBut(old(host.mem), host.mem, tb, 8 * ENTRIES)
        invariant forall j :: 0 <= j < i ==> TableAt(host.mem, tb)[j] == 0
      {
        SetEntryEffect(host.mem, tb, i, 0);
        host.mem := Wr64(host.mem, tb + 8 * i, 0);
      }
      assert TableAt(host.mem, tb) == EmptyTable();
    }

    /** stage2_map_1gb and stage2_map_1gb_device differ only in the attributes. */
    method Map1Gb(ipa: u64, attributes: int)
      requires Valid() && Attributes(attributes)
      modifies host`mem
      ensures TableAt(host.mem, l1) == Mapped(TableAt(old(host.mem), l1), ipa, attributes)
      ensures SameBut(old(host.mem), host.mem, l1, 8 * ENTRIES)
    {
      var idx := ipa / GIB % ENTRIES;
      SetEntryEffect(host.mem, l1, idx, BlockEntry(ipa, attributes));
      host.mem := Wr64(host.mem, l1 + 8 * idx, BlockEntry(ipa, attributes));
    }

    method Init()
      requires Valid()
      modifies host`mem
      ensures TableAt(host.mem, l1) == InitialTable() && SameBut(old(host.mem), host.mem, l1, 8 * ENTRIES)
    {
      Clear(l1);
      Map1Gb(GIB, NORMAL);
    }

    /** stage2_build_vm; the result carries the table address below the VMID. */
    method BuildVm(k: int, ipa: u64, pa: u64, vmid: u16) returns (vttbr: u64)
      requires Valid() && 0 <= k < 2 && vm[k] < 0x1_0000_0000_0000
      modifies host`mem
      ensures TableAt(host.mem, vm[k]) == VmTable(ipa, pa) && SameBut(old(host.mem), host.mem, vm[k], 8 * ENTRIES)
      ensures vttbr % 0x1_0000_0000_0000 == vm[k] && vttbr / 0x1_0000_0000_0000 == vmid
    {
      Clear(vm[k]);
      var idx := ipa / GIB % ENTRIES;
      SetEntryEffect(host.mem, vm[k], idx, BlockEntry(pa, NORMAL));
      host.mem := Wr64(host.mem, vm[k] + 8 * idx, BlockEntry(pa, NORMAL));
      vttbr := vm[k] + vmid * 0x1_0000_0000_0000;
    }
  }
}
