/** The two per-VM virtio devices as objects, proved against ConsoleSpec and BlockSpec. */
module VirtioDevices {
  import opened Words
  import opened Bits
  import opened HostMemory
  import opened Virtqueue
  import opened VcpuState
  import opened HostMachine
  import ConsoleSpec
  import BlockSpec

  const NOTIFY := 0x50

  /** What a 32-bit store to a register other than QueueNotify does to the console's registers. */
  function ConsoleWrite(c: ConsoleSpec.Con, off: int, val: u32): ConsoleSpec.Con {
    match off
    case 0x028 => c.(pageSize := val)
    case 0x038 => c.(queueNum := val)
    case 0x040 => c.(queuePfn := val)
    case 0x070 => c.(status := val)
    case 0x064 => c.(intStatus := AndNot32(c.intStatus, val))
    case _ => c
  }

  function ConsoleRead(c: ConsoleSpec.Con, off: int): u32 {
    match off
    case 0x000 => 0x74726976
    case 0x004 => 1
    case 0x008 => 3
    case 0x00c => 0x554d4551
    case 0x034 => 8
    case 0x040 => c.queuePfn
    case 0x060 => c.intStatus
    case 0x070 => c.status
    case _ => 0
  }

  function BlockWrite(b: BlockSpec.Blk, off: int, val: u32): BlockSpec.Blk {
    match off
    case 0x028 => b.(pageSize := val)
    case 0x038 => b.(queueNum := val)
    case 0x040 => b.(queuePfn := val)
    case 0x070 => b.(status := val)
    case 0x064 => b.(intStatus := AndNot32(b.intStatus, val))
    case _ => b
  }

  function BlockRead(b: BlockSpec.Blk, off: int): u32 {
    match off
    case 0x000 => 0x74726976
    case 0x004 => 1
    case 0x008 => 2
    case 0x00c => 0x554d4551
    case 0x034 => 8
    case 0x040 => b.queuePfn
    case 0x060 => b.intStatus
    case 0x070 => b.status
    case 0x100 => 16
    case _ => 0
  }

  const CONSOLE_BASE := 0x0A00_0000
  const BLOCK_BASE := 0x0A00_0200

  class Console {
    var status: u32
    var pageSize: u32
    var queueNum: u32
    var queuePfn: u32
    var intStatus: u32
    var lastAvail: u16
    var irq: bool
    var hostOff: u64

    ghost function State(): ConsoleSpec.Con
      reads this
    {
      ConsoleSpec.Con(status, pageSize, queueNum, queuePfn, intStatus, lastAvail, irq, hostOff)
    }

    constructor ()
      ensures State() == ConsoleSpec.Con(0, 4096, 0, 0, 0, 0, false, 0)
    {
      status, queueNum, queuePfn, intStatus, lastAvail, irq, pageSize, hostOff := 0, 0, 0, 0, 0, false, 4096, 0;
    }

    /** virtio_reset for one device. */
    method Reset()
      modifies this
      ensures State() == ConsoleSpec.Con(0, 4096, 0, 0, 0, 0, false, 0)
    {
      status, queueNum, queuePfn, intStatus := 0, 0, 0, 0;
      lastAvail, irq, pageSize, hostOff := 0, false, 4096, 0;
    }

    method SetOffset(off: u64)
      modifies this
      ensures State() == old(State()).(hostOff := off)
    {
      hostOff := off;
    }

    /** Reports a completion interrupt once. */
    method TakeIrq() returns (raised: bool)
      modifies this
      ensures raised == old(irq) && State() == old(State()).(irq := false)
    {
      raised := irq;
      irq := false;
    }

    /** virtio_process_tx: walk the available ring, emit every buffer, publish every head. */
    method ProcessTx(host: Host)
      modifies this, host
      ensures ConsoleSpec.Outcome(State(), host.mem, host.out)
              == ConsoleSpec.Notify(old(State()), old(host.mem), old(host.out))
    {
      if queuePfn == 0 || queueNum == 0 {
        return;
      }
      var q := Queue(Wrap(queuePfn * pageSize + hostOff), queueNum);
      var to := AvailIdx(host.mem, q);
      assert q == ConsoleSpec.QueueOf(State());
      ghost var p := ConsoleSpec.Drain(ConsoleSpec.Progress(lastAvail, host.mem, host.out), q, hostOff, to);
      var consumed := DrainRing(host, q, to);
      if consumed {
        intStatus := SetBit0(intStatus);
        irq := true;
      }
      assert host.mem == p.m && host.out == p.out && State() == ConsoleSpec.Advanced(old(State()), consumed, p.last);
    }

    /** Its loop; consumed reports whether there was anything to take. */
    method DrainRing(host: Host, q: Queue, to: u16) returns (consumed: bool)
      requires 0 < q.num
      modifies this`lastAvail, host
      ensures ConsoleSpec.Progress(lastAvail, host.mem, host.out)
              == ConsoleSpec.Drain(ConsoleSpec.Progress(old(lastAvail), old(host.mem), old(host.out)), q, hostOff, to)
      ensures lastAvail == to && (consumed <==> old(lastAvail) != to)
    {
      consumed := false;
      ghost var start := ConsoleSpec.Progress(lastAvail, host.mem, host.out);
      while lastAvail != to
        invariant Dist(lastAvail, to) <= Dist(start.last, to)
        invariant consumed <==> Dist(lastAvail, to) < Dist(start.last, to)
        invariant ConsoleSpec.Drain(start, q, hostOff, to)
               == ConsoleSpec.Drain(ConsoleSpec.Progress(lastAvail, host.mem, host.out), q, hostOff, to)
        decreases Dist(lastAvail, to)
      {
        EmitBuffer(host, q);
        lastAvail := Next16(lastAvail);
        consumed := true;
      }
    }

    /** One iteration: the buffer byte by byte to the console, then the used element. */
    method EmitBuffer(host: Host, q: Queue)
      requires 0 < q.num
      modifies host
      ensures var b := ConsoleSpec.Decode(old(host.mem), q, hostOff, lastAvail);
        && host.mem == Publish(old(host.mem), q, b.head, 0)
        && host.out == old(host.out) + Bytes(old(host.mem), b.addr, b.len)
    {
      var slot := lastAvail % q.num;
      var didx := Rd16(host.mem, q.Avail() + 4 + 2 * slot);
      var desc := q.base + 16 * (didx as int);
      var addr := Wrap(Rd64(host.mem, desc) + hostOff);
      var len := Rd32(host.mem, desc + 8);
      assert ConsoleSpec.Decode(host.mem, q, hostOff, lastAvail) == ConsoleSpec.Buffer(didx, addr, len);
      for i := 0 to len
        invariant host.mem == old(host.mem) && host.out == old(host.out) + Bytes(host.mem, addr, i)
      {
        host.out := host.out + [Byte(host.mem, addr + i)];
      }
      host.PublishUsed(q, didx, 0);
    }

    /** virtio_mmio: decode the trapped access, perform it, step over the instruction. */
    method Mmio(v: TrapFrame, ipa: u64, host: Host)
      requires |v.x| == 31 && CONSOLE_BASE <= ipa
      modifies this, v`x, v`pc, host
      ensures v.pc == Wrap(old(v.pc) + 4)
      ensures var s, off := DecodeSyndrome(v.exitEsr), ipa - 0x0A00_0000;
        if !s.valid then
          State() == old(State()) && host.mem == old(host.mem) && host.out == old(host.out) && v.x == old(v.x)
        else if !s.write then
          && State() == old(State()) && host.mem == old(host.mem) && host.out == old(host.out)
          && v.x == Loaded(old(v.x), s.reg, ConsoleRead(old(State()), off))
        else
          && v.x == old(v.x)
          && if off == NOTIFY then
               ConsoleSpec.Outcome(State(), host.mem, host.out)
               == ConsoleSpec.Notify(old(State()), old(host.mem), old(host.out))
             else
               && State() == ConsoleWrite(old(State()), off, Stored(v.x, s.reg) % TWO32)
               && host.mem == old(host.mem) && host.out == old(host.out)
    {
      var s, off := DecodeSyndrome(v.exitEsr), ipa - CONSOLE_BASE;
      if s.valid {
        if s.write {
          var val: u32 := Stored(v.x, s.reg) % TWO32;
          match off {
            case 0x028 => pageSize := val;
            case 0x038 => queueNum := val;
            case 0x040 => queuePfn := val;
            case 0x070 => status := val;
            case 0x064 => intStatus := AndNot32(intStatus, val);
            case 0x050 => ProcessTx(host);
            case _ =>
          }
        } else {
          var val: u32 := 0;
          match off {
            case 0x000 => val := 0x74726976;
            case 0x004 => val := 1;
            case 0x008 => val := 3;
            case 0x00c => val := 0x554d4551;
            case 0x034 => val := 8;
            case 0x040 => val := queuePfn;
            case 0x060 => val := intStatus;
            case 0x070 => val := status;
            case _ =>
          }
          v.x := Loaded(v.x, s.reg, val);
        }
      }
      v.pc := Wrap(v.pc + 4);
    }
  }

  class Block {
    var status: u32
    var pageSize: u32
    var queueNum: u32
    var queuePfn: u32
    var intStatus: u32
    var lastAvail: u16
    var irq: bool
    var hostOff: u64
    const disk: array<u8>

    ghost predicate Valid() { disk.Length == BlockSpec.DISK_SIZE }

    ghost function State(): BlockSpec.Blk
      requires Valid()
      reads this, disk
    {
      BlockSpec.Blk(status, pageSize, queueNum, queuePfn, intStatus, lastAvail, irq, hostOff, disk[..])
    }

    constructor ()
      ensures Valid() && fresh(disk)
    {
      status, queueNum, queuePfn, intStatus, lastAvail, irq, pageSize, hostOff := 0, 0, 0, 0, 0, false, 4096, 0;
      disk := new u8[BlockSpec.DISK_SIZE](i => 0);
    }

    /** vblk_reset for one device. */
    method Reset()
      requires Valid()
      modifies this, disk
      ensures State() == BlockSpec.Blk(0, 4096, 0, 0, 0, 0, false, 0, seq(BlockSpec.DISK_SIZE, i => 0))
    {
      status, queueNum, queuePfn, intStatus := 0, 0, 0, 0;
      lastAvail, irq, pageSize, hostOff := 0, false, 4096, 0;
      for i := 0 to disk.Length
        invariant State() == BlockSpec.Blk(0, 4096, 0, 0, 0, 0, false, 0, disk[..])
        invariant forall k :: 0 <= k < i ==> disk[k] == 0
      {
        disk[i] := 0;
      }
      assert disk[..] == seq(BlockSpec.DISK_SIZE, i => 0);
    }

    method SetOffset(off: u64)
      requires Valid()
      modifies this
      ensures State() == old(State()).(hostOff := off)
    {
      hostOff := off;
    }

    /** Reports a completion interrupt once. */
    method TakeIrq() returns (raised: bool)
      requires Valid()
      modifies this
      ensures raised == old(irq) && State() == old(State()).(irq := false)
    {
      raised := irq;
      irq := false;
    }

    /** The hypervisor's view of the first n bytes. */
    method Peek(n: nat) returns (bytes: seq<u8>)
      requires Valid() && n <= BlockSpec.DISK_SIZE
      ensures bytes == State().disk[..n]
    {
      bytes := [];
      for i := 0 to n
        invariant bytes == disk[..i]
      {
        bytes := bytes + [disk[i]];
      }
    }

    /** The hypervisor seeds the first bytes. */
    method Poke(bytes: seq<u8>)
      requires Valid() && |bytes| <= BlockSpec.DISK_SIZE
      modifies disk
      ensures State() == old(State()).(disk := BlockSpec.Splice(old(State()).disk, 0, bytes))
    {
      for i := 0 to |bytes|
        invariant forall k :: 0 <= k < disk.Length ==> disk[k] == if k < i then bytes[k] else old(disk[k])
      {
        disk[i] := bytes[i];
      }
      assert disk[..] == BlockSpec.Splice(old(disk[..]), 0, bytes);
    }

    /** The write loop: dlen bytes of memory onto the disk, up to the first index outside the array. */
    method CopyToDisk(host: Host, doff: u64, daddr: u64, dlen: u32) returns (defined: bool)
      requires Valid() && (doff + dlen <= BlockSpec.DISK_SIZE || (0 < dlen && BlockSpec.DISK_SIZE <= doff))
      modifies disk
      ensures defined <==> doff + dlen <= BlockSpec.DISK_SIZE
      ensures defined ==> disk[..] == BlockSpec.Splice(old(disk[..]), doff, Bytes(host.mem, daddr, dlen))
    {
      ghost var was := disk[..];
      for i := 0 to dlen
        invariant i > 0 ==> doff + dlen <= BlockSpec.DISK_SIZE
        invariant doff + dlen <= BlockSpec.DISK_SIZE ==> disk[..] == was[..doff] + Bytes(host.mem, daddr, i) + was[doff + i..]
      {
        var at: u64 := Wrap(doff + i);
        if at >= disk.Length {
          return false;
        }
        disk[at] := Byte(host.mem, daddr + i);
      }
      return true;
    }

    /** The read loop: dlen bytes of the disk into memory, up to the first index outside the array. */
    method CopyToMemory(host: Host, doff: u64, daddr: u64, dlen: u32) returns (defined: bool)
      requires Valid() && (doff + dlen <= BlockSpec.DISK_SIZE || (0 < dlen && BlockSpec.DISK_SIZE <= doff))
      modifies host`mem
      ensures defined <==> doff + dlen <= BlockSpec.DISK_SIZE
      ensures defined ==> host.mem == Fill(old(host.mem), daddr, disk[doff..doff + dlen])
    {
      ghost var was, d := host.mem, disk[..];
      for i := 0 to dlen
        invariant d == disk[..] && (i > 0 ==> doff + dlen <= BlockSpec.DISK_SIZE)
        invariant doff + dlen <= BlockSpec.DISK_SIZE ==> host.mem == Fill(was, daddr, d[doff..doff + i])
      {
        var at: u64 := Wrap(doff + i);
        if at >= disk.Length {
          return false;
        }
        FillSnoc(was, daddr, d[doff..doff + i], d[doff + i]);
        assert d[doff..doff + i + 1] == d[doff..doff + i] + [d[doff + i]];
        host.mem := Put(host.mem, daddr + i, disk[at]);
      }
      return true;
    }

    /** Range check, data phase and status byte of one decoded request. */
    method TransferData(host: Host, r: BlockSpec.Request) returns (defined: bool)
      requires Valid()
      modifies disk, host`mem
      ensures defined <==> !BlockSpec.Stray(r)
      ensures defined ==> (disk[..], host.mem) == BlockSpec.Transfer(old(disk[..]), old(host.mem), r)
    {
      var st: u8 := 0;
      defined := true;
      var doff: u64 := Wrap(r.sector * BlockSpec.SECTOR_SIZE);
      if Wrap(doff + r.dlen) <= disk.Length {
        BlockSpec.AcceptedRange(r);
        if r.kind == 1 {
          defined := CopyToDisk(host, doff, r.daddr, r.dlen);
        } else {
          defined := CopyToMemory(host, doff, r.daddr, r.dlen);
        }
      } else {
        st := 1;
      }
      if defined {
        host.mem := Put(host.mem, r.saddr, st);
      }
    }

    /** Follow the three descriptors of the chain the ring position selects. */
    method Fetch(host: Host, q: Queue) returns (r: BlockSpec.Request)
      requires 0 < q.num
      ensures r == BlockSpec.Decode(host.mem, q, hostOff, lastAvail)
    {
      var m, o := host.mem, hostOff;
      var head := HeadAt(m, q, lastAvail);
      var haddr := Wrap(DescAddr(m, q, head) + o);
      var hnext := DescNext(m, q, head);
      var kind := Rd32(m, haddr);
      var sector := Rd64(m, haddr as int + 8);
      var daddr := Wrap(DescAddr(m, q, hnext) + o);
      var dlen := DescLen(m, q, hnext);
      var dnext := DescNext(m, q, hnext);
      var saddr := Wrap(DescAddr(m, q, dnext) + o);
      r := BlockSpec.Request(head, haddr, hnext, kind, sector, daddr, dlen, dnext, saddr);
    }

    /** vblk_process: it has a defined effect exactly when no pending request strays off the disk array. */
    method Process(host: Host) returns (defined: bool)
      requires Valid()
      modifies this, disk, host`mem
      ensures defined <==> BlockSpec.NotifySafe(old(State()), old(host.mem))
      ensures defined ==> BlockSpec.Outcome(State(), host.mem) == BlockSpec.Notify(old(State()), old(host.mem))
    {
      if queuePfn == 0 || queueNum == 0 {
        return true;
      }
      var q := Queue(Wrap(queuePfn * pageSize + hostOff), queueNum);
      assert q == BlockSpec.QueueOf(State());
      defined := ServeRing(host, q, AvailIdx(host.mem, q));
    }

    /** Its request loop. */
    method ServeRing(host: Host, q: Queue, to: u16) returns (defined: bool)
      requires Valid() && 0 < q.num
      modifies this, disk, host`mem
      ensures defined <==> BlockSpec.BatchSafe(old(State()), q, old(host.mem), to)
      ensures defined ==> BlockSpec.Outcome(State(), host.mem) == BlockSpec.Batch(old(State()), q, old(host.mem), to)
    {
      ghost var b, m := State(), host.mem;
      while lastAvail != to
        invariant BlockSpec.BatchSafe(State(), q, host.mem, to) <==> BlockSpec.BatchSafe(b, q, m, to)
        invariant BlockSpec.BatchSafe(b, q, m, to) ==>
          BlockSpec.Batch(State(), q, host.mem, to) == BlockSpec.Batch(b, q, m, to)
        decreases Dist(lastAvail, to)
      {
        defined := ServeRequest(host, q);
        if !defined {
          return;
        }
      }
      defined := true;
    }

    method ServeRequest(host: Host, q: Queue) returns (defined: bool)
      requires Valid() && 0 < q.num
      modifies this, disk, host`mem
      ensures defined <==> !BlockSpec.Stray(BlockSpec.Decode(old(host.mem), q, old(hostOff), old(lastAvail)))
      ensures defined ==> BlockSpec.Outcome(State(), host.mem) == BlockSpec.ServeOne(old(State()), q, old(host.mem))
    {
      var r := Fetch(host, q);
      defined := TransferData(host, r);
      if defined {
        host.PublishUsed(q, r.head, r.dlen);
        lastAvail := Next16(lastAvail);
        intStatus := SetBit0(intStatus);
        irq := true;
      }
    }

    /** vblk_mmio: decode the trapped access, perform it, step over the instruction. */
    method Mmio(v: TrapFrame, ipa: u64, host: Host) returns (defined: bool)
      requires Valid() && |v.x| == 31 && BLOCK_BASE <= ipa
      modifies this, disk, v`x, v`pc, host`mem
      ensures var s := DecodeSyndrome(v.exitEsr);
        !defined <==> s.valid && s.write && ipa == 0x0A00_0250 && !BlockSpec.NotifySafe(old(State()), old(host.mem))
      ensures defined ==> v.pc == Wrap(old(v.pc) + 4)
      ensures defined ==> var s, off := DecodeSyndrome(v.exitEsr), ipa - 0x0A00_0200;
        if !s.valid then
          State() == old(State()) && host.mem == old(host.mem) && v.x == old(v.x)
        else if !s.write then
          && State() == old(State()) && host.mem == old(host.mem)
          && v.x == Loaded(old(v.x), s.reg, BlockRead(old(State()), off))
        else
          && v.x == old(v.x)
          && if off == NOTIFY then
               BlockSpec.Outcome(State(), host.mem) == BlockSpec.Notify(old(State()), old(host.mem))
             else
               State() == BlockWrite(old(State()), off, Stored(v.x, s.reg) % TWO32) && host.mem == old(host.mem)
    {
      var s, off := DecodeSyndrome(v.exitEsr), ipa - BLOCK_BASE;
      defined := true;
      if s.valid {
        if s.write {
          var val: u32 := Stored(v.x, s.reg) % TWO32;
          match off {
            case 0x028 => pageSize := val;
            case 0x038 => queueNum := val;
            case 0x040 => queuePfn := val;
            case 0x070 => status := val;
            case 0x064 => intStatus := AndNot32(intStatus, val);
            case 0x050 => defined := Process(host);
            case _ =>
          }
        } else {
          var val: u32 := 0;
          match off {
            case 0x000 => val := 0x74726976;
            case 0x004 => val := 1;
            case 0x008 => val := 2;
            case 0x00c => val := 0x554d4551;
            case 0x034 => val := 8;
            case 0x040 => val := queuePfn;
            case 0x060 => val := intStatus;
            case 0x070 => val := status;
            case 0x100 => val := 16;
            case _ =>
          }
          v.x := Loaded(v.x, s.reg, val);
        }
      }
      v.pc := Wrap(v.pc + 4);
    }
  }
}
