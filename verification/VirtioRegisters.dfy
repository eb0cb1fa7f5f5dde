/**
 * The virtio register files as a driver sees them: what its writes have configured, what
 * its reads return, and the life of the interrupt status.
 */
module VirtioRegisters {
  import opened Words
  import opened Bits
  import opened HostMemory
  import opened Virtqueue
  import opened VirtioDevices
  import B = BlockSpec
  import C = ConsoleSpec
  import opened RingBytes

  /** A 32-bit store to the register at offset off. */
  datatype Store = Store(off: int, val: u32)

  /** The latest value stored to a register, `before` if there was none. */
  function Latest(ws: seq<Store>, off: int, before: u32): u32 {
    if ws == [] then before
    else if ws[|ws| - 1].off == off then ws[|ws| - 1].val
    else Latest(ws[..|ws| - 1], off, before)
  }

  function ConsoleAfter(c: C.Con, ws: seq<Store>): C.Con {
    if ws == [] then c else ConsoleWrite(ConsoleAfter(c, ws[..|ws| - 1]), ws[|ws| - 1].off, ws[|ws| - 1].val)
  }

  function BlockAfter(b: B.Blk, ws: seq<Store>): B.Blk {
    if ws == [] then b else BlockWrite(BlockAfter(b, ws[..|ws| - 1]), ws[|ws| - 1].off, ws[|ws| - 1].val)
  }

  /** Bit b of the interrupt status is still on: it was, and no store to InterruptACK (0x64) had it. */
  predicate Unacked(ws: seq<Store>, before: u32, b: nat) {
    if ws == [] then Bit(before, b)
    else Unacked(ws[..|ws| - 1], before, b) && !(ws[|ws| - 1].off == 0x64 && Bit(ws[|ws| - 1].val, b))
  }

  /** Over any stores: GuestPageSize 0x28, QueueNum 0x38, QueuePFN 0x40 and Status 0x70 hold the latest value stored. */
  lemma {:induction false} ConsoleHolds(c: C.Con, ws: seq<Store>, b: nat)
    ensures var c' := ConsoleAfter(c, ws);
      && c'.pageSize == Latest(ws, 0x28, c.pageSize) && c'.queueNum == Latest(ws, 0x38, c.queueNum)
      && c'.queuePfn == Latest(ws, 0x40, c.queuePfn) && c'.status == Latest(ws, 0x70, c.status)
      && c'.hostOff == c.hostOff && c'.lastAvail == c.lastAvail && c'.irq == c.irq
      && (Bit(c'.intStatus, b) <==> Unacked(ws, c.intStatus, b))
    decreases |ws|
  {
    if ws != [] {
      ConsoleHolds(c, ws[..|ws| - 1], b);
      AndNotBit(ConsoleAfter(c, ws[..|ws| - 1]).intStatus, ws[|ws| - 1].val, b);
    }
  }

  lemma {:induction false} BlockHolds(k: B.Blk, ws: seq<Store>, b: nat)
    ensures var k' := BlockAfter(k, ws);
      && k'.pageSize == Latest(ws, 0x28, k.pageSize) && k'.queueNum == Latest(ws, 0x38, k.queueNum)
      && k'.queuePfn == Latest(ws, 0x40, k.queuePfn) && k'.status == Latest(ws, 0x70, k.status)
      && k'.hostOff == k.hostOff && k'.lastAvail == k.lastAvail && k'.irq == k.irq && k'.disk == k.disk
      && (Bit(k'.intStatus, b) <==> Unacked(ws, k.intStatus, b))
    decreases |ws|
  {
    if ws != [] {
      BlockHolds(k, ws[..|ws| - 1], b);
      AndNotBit(BlockAfter(k, ws[..|ws| - 1]).intStatus, ws[|ws| - 1].val, b);
    }
  }

  /**
   * What a console driver reads after any stores: the latest QueuePFN and Status, the bits
   * of the interrupt status not acknowledged, and the device's identity (magic "virt",
   * version 1, device 3, vendor "QEMU", no features, queues of at most 8).
   */
  lemma ConsoleReads(c: C.Con, ws: seq<Store>, b: nat)
    ensures var c' := ConsoleAfter(c, ws);
      && ConsoleRead(c', 0x40) == Latest(ws, 0x40, c.queuePfn) && ConsoleRead(c', 0x70) == Latest(ws, 0x70, c.status)
      && (Bit(ConsoleRead(c', 0x60), b) <==> Unacked(ws, c.intStatus, b))
      && Identity(ConsoleRead(c', 0x00), ConsoleRead(c', 0x04), ConsoleRead(c', 0x0C), ConsoleRead(c', 0x10))
      && ConsoleRead(c', 0x08) == 3 && ConsoleRead(c', 0x34) == 8
  {
    ConsoleHolds(c, ws, b);
  }

  predicate Identity(magic: u32, version: u32, vendor: u32, features: u32) {
    && magic == 'v' as int + 0x100 * 'i' as int + 0x1_0000 * 'r' as int + 0x100_0000 * 't' as int
    && vendor == 'Q' as int + 0x100 * 'E' as int + 0x1_0000 * 'M' as int + 0x100_0000 * 'U' as int
    && version == 1 && features == 0
  }

  /** The block driver's view, with device 2 and the capacity, in sectors, of exactly the disk. */
  lemma BlockReads(k: B.Blk, ws: seq<Store>, b: nat)
    ensures var k' := BlockAfter(k, ws);
      && BlockRead(k', 0x40) == Latest(ws, 0x40, k.queuePfn) && BlockRead(k', 0x70) == Latest(ws, 0x70, k.status)
      && (Bit(BlockRead(k', 0x60), b) <==> Unacked(ws, k.intStatus, b))
      && Identity(BlockRead(k', 0x00), BlockRead(k', 0x04), BlockRead(k', 0x0C), BlockRead(k', 0x10))
      && BlockRead(k', 0x08) == 2 && BlockRead(k', 0x34) == 8
      && 512 * BlockRead(k', 0x100) == |k.disk| && BlockRead(k', 0x104) == 0
  {
    BlockHolds(k, ws, b);
  }

  // ---- the interrupt of a notification ----

  lemma SetBit0Bits(x: u32, b: nat)
    ensures Bit(SetBit0(x), b) <==> b == 0 || Bit(x, b)
  {
    if b > 0 {
      assert SetBit0(x) / 2 == x / 2;
    }
  }

  /** The interrupt state after a notification that found something waiting, or nothing. */
  ghost predicate Raised(before: u32, irq: bool, after: u32, irq': bool, waiting: bool) {
    && irq' == (irq || waiting)
    && forall b: nat :: Bit(after, b) <==> Bit(before, b) || (waiting && b == 0)
  }

  lemma {:induction false} BatchRaises(k: B.Blk, q: Queue, m: Mem, to: u16)
    requires 0 < q.num && B.BatchSafe(k, q, m, to)
    ensures var k' := B.Batch(k, q, m, to).b; Raised(k.intStatus, k.irq, k'.intStatus, k'.irq, k.lastAvail != to)
    decreases Dist(k.lastAvail, to)
  {
    if k.lastAvail != to {
      var o := B.ServeOne(k, q, m);
      DistNext(k.lastAvail, to);
      BatchRaises(o.b, q, o.m, to);
      forall b: nat ensures Bit(o.b.intStatus, b) <==> b == 0 || Bit(k.intStatus, b) {
        SetBit0Bits(k.intStatus, b);
      }
    }
  }

  /**
   * A notification of a ready block device, whatever memory holds, sets bit 0 of the
   * interrupt status and raises the interrupt exactly if the available index in memory is
   * not the device's position; it changes no other bit.
   */
  lemma BlockRaises(k: B.Blk, q: Queue, m: Mem)
    requires B.Ready(k) && q == B.QueueOf(k) && q.LaidOut() && B.NotifySafe(k, m)
    ensures var k' := B.Notify(k, m).b;
      Raised(k.intStatus, k.irq, k'.intStatus, k'.irq, k.lastAvail != Word(m, q.base + 16 * q.num + 2, 2))
  {
    AvailIs(m, q);
    BatchRaises(k, q, m, AvailIdx(m, q));
  }

  lemma ConsoleRaises(c: C.Con, q: Queue, m: Mem, out: seq<u8>)
    requires C.Ready(c) && q == C.QueueOf(c) && q.LaidOut()
    ensures var c' := C.Notify(c, m, out).c;
      Raised(c.intStatus, c.irq, c'.intStatus, c'.irq, c.lastAvail != Word(m, q.base + 16 * q.num + 2, 2))
  {
    AvailIs(m, q);
    forall b: nat ensures Bit(SetBit0(c.intStatus), b) <==> b == 0 || Bit(c.intStatus, b) {
      SetBit0Bits(c.intStatus, b);
    }
    NotifyStatus(c, q, m, out, AvailIdx(m, q));
  }

  lemma NotifyStatus(c: C.Con, q: Queue, m: Mem, out: seq<u8>, to: u16)
    requires C.Ready(c) && q == C.QueueOf(c) && to == AvailIdx(m, q)
    ensures var c', some := C.Notify(c, m, out).c, c.lastAvail != to;
      c'.intStatus == (if some then SetBit0(c.intStatus) else c.intStatus) && c'.irq == (c.irq || some)
  {
  }
}
