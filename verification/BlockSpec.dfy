/**
 * What one notification of the block device does to the device, the disk and
 * host memory, as a function: the loop of vblk_process with the reads and
 * writes in the order the code makes them.
 */
module BlockSpec {
  import opened Words
  import opened HostMemory
  import opened Virtqueue

  const SECTOR_SIZE := 512
  const DISK_SIZE := 16 * SECTOR_SIZE

  type Disk = d: seq<u8> | |d| == DISK_SIZE ghost witness seq(DISK_SIZE, i => 0)

  /** struct vblk. */
  datatype Blk = Blk(status: u32, pageSize: u32, queueNum: u32, queuePfn: u32, intStatus: u32,
                     lastAvail: u16, irq: bool, hostOff: u64, disk: Disk)

  /** A header/data/status chain, with host addresses, as the loop body decodes it. */
  datatype Request = Request(head: u16, haddr: u64, hnext: u16, kind: u32, sector: u64,
                             daddr: u64, dlen: u32, dnext: u16, saddr: u64)

  function QueueOf(b: Blk): Queue { Queue(Wrap(b.queuePfn * b.pageSize + b.hostOff), b.queueNum) }

  function Decode(m: Mem, q: Queue, off: u64, last: u16): Request
    requires 0 < q.num
  {
    Follow(m, q, off, HeadAt(m, q, last))
  }

  /** The chain that starts at descriptor head. */
  function Follow(m: Mem, q: Queue, off: u64, head: u16): Request {
    var haddr := Wrap(DescAddr(m, q, head) + off);
    var hnext := DescNext(m, q, head);
    var dnext := DescNext(m, q, hnext);
    Request(head, haddr, hnext, Rd32(m, haddr), Rd64(m, haddr + 8),
            Wrap(DescAddr(m, q, hnext) + off), DescLen(m, q, hnext), dnext, Wrap(DescAddr(m, q, dnext) + off))
  }

  /** The part of a chain that the descriptors alone determine. */
  predicate Follows(m: Mem, q: Queue, off: u64, head: u16, r: Request) {
    && r.head == head && r.haddr == Wrap(DescAddr(m, q, head) + off) && r.hnext == DescNext(m, q, head)
    && r.daddr == Wrap(DescAddr(m, q, r.hnext) + off) && r.dlen == DescLen(m, q, r.hnext) && r.dnext == DescNext(m, q, r.hnext)
    && r.saddr == Wrap(DescAddr(m, q, r.dnext) + off)
  }

  lemma FollowIsChain(m: Mem, q: Queue, off: u64, head: u16, r: Request)
    requires r == Follow(m, q, off, head)
    ensures Follows(m, q, off, head, r) && r.kind == Rd32(m, r.haddr) && r.sector == Rd64(m, r.haddr + 8)
  {
  }

  /** Two chains with the same descriptors and the same header are the same. */
  lemma SameChain(r: Request, r': Request)
    requires r'.head == r.head && r'.haddr == r.haddr && r'.hnext == r.hnext && r'.daddr == r.daddr
    requires r'.dlen == r.dlen && r'.dnext == r.dnext && r'.saddr == r.saddr && r'.kind == r.kind && r'.sector == r.sector
    ensures r' == r
  {
  }

  /** Byte offset of the request on the disk; the multiplication is 64-bit. */
  function Offset(r: Request): u64 { Wrap(r.sector * SECTOR_SIZE) }

  /** The range check as the code computes it. */
  predicate Accepted(r: Request) { Wrap(Offset(r) + r.dlen) <= DISK_SIZE }

  /** An accepted request whose end wraps past 2^64: its copy loop indexes the disk array out of bounds (StrayExact). */
  predicate Stray(r: Request) { Accepted(r) && Offset(r) + r.dlen >= TWO64 }

  /** Byte i of the data phase is not a byte of the disk array. */
  predicate OffDisk(r: Request, i: int) { Wrap(Offset(r) + i) >= DISK_SIZE }

  function Splice(d: Disk, off: nat, bs: seq<u8>): Disk
    requires off + |bs| <= DISK_SIZE
  {
    d[..off] + bs + d[off + |bs|..]
  }

  /** The data phase and the status byte. */
  function Transfer(d: Disk, m: Mem, r: Request): (Disk, Mem)
    requires !Stray(r)
  {
    if !Accepted(r) then (d, Put(m, r.saddr, 1))
    else if r.kind == 1 then (Splice(d, Offset(r), Bytes(m, r.daddr, r.dlen)), Put(m, r.saddr, 0))
    else (d, Put(Fill(m, r.daddr, d[Offset(r)..Offset(r) + r.dlen]), r.saddr, 0))
  }

  datatype Outcome = Outcome(b: Blk, m: Mem)

  /** One iteration of the request loop. */
  function ServeOne(b: Blk, q: Queue, m: Mem): Outcome
    requires 0 < q.num && !Stray(Decode(m, q, b.hostOff, b.lastAvail))
  {
    var r := Decode(m, q, b.hostOff, b.lastAvail);
    var (d, m1) := Transfer(b.disk, m, r);
    Outcome(b.(disk := d, lastAvail := Next16(b.lastAvail), intStatus := SetBit0(b.intStatus), irq := true),
            Publish(m1, q, r.head, r.dlen))
  }

  /** No iteration of the loop up to available index `to` meets a stray request. */
  predicate BatchSafe(b: Blk, q: Queue, m: Mem, to: u16)
    requires 0 < q.num
    decreases Dist(b.lastAvail, to)
  {
    b.lastAvail != to ==>
      && !Stray(Decode(m, q, b.hostOff, b.lastAvail))
      && var o := ServeOne(b, q, m); BatchSafe(o.b, q, o.m, to)
  }

  /** The loop, until last_avail reaches the available index `to` read before it. */
  function Batch(b: Blk, q: Queue, m: Mem, to: u16): Outcome
    requires 0 < q.num && BatchSafe(b, q, m, to)
    decreases Dist(b.lastAvail, to)
  {
    if b.lastAvail == to then Outcome(b, m)
    else var o := ServeOne(b, q, m); Batch(o.b, q, o.m, to)
  }

  predicate Ready(b: Blk) { b.queuePfn != 0 && b.queueNum != 0 }

  predicate NotifySafe(b: Blk, m: Mem) {
    Ready(b) ==> BatchSafe(b, QueueOf(b), m, AvailIdx(m, QueueOf(b)))
  }

  /** A write to QueueNotify. */
  function Notify(b: Blk, m: Mem): Outcome
    requires NotifySafe(b, m)
  {
    if Ready(b) then Batch(b, QueueOf(b), m, AvailIdx(m, QueueOf(b))) else Outcome(b, m)
  }

  lemma {:induction false} BatchKeepsOffset(b: Blk, q: Queue, m: Mem, to: u16)
    requires 0 < q.num && BatchSafe(b, q, m, to)
    ensures Batch(b, q, m, to).b.hostOff == b.hostOff
    decreases Dist(b.lastAvail, to)
  {
    if b.lastAvail != to {
      var o := ServeOne(b, q, m);
      BatchKeepsOffset(o.b, q, o.m, to);
    }
  }

  lemma NotifyKeepsOffset(b: Blk, m: Mem)
    requires NotifySafe(b, m)
    ensures Notify(b, m).b.hostOff == b.hostOff
  {
    if Ready(b) {
      BatchKeepsOffset(b, QueueOf(b), m, AvailIdx(m, QueueOf(b)));
    }
  }

  /** The range a request names fits the disk, in unbounded arithmetic. */
  predicate Fits(r: Request) { r.sector * SECTOR_SIZE + r.dlen <= DISK_SIZE }

  /**
   * The 64-bit range check decides Fits exactly for those requests whose
   * unbounded end does not come back, modulo 2^64, to a disk offset.
   */
  lemma RangeCheckExact(r: Request)
    ensures (Accepted(r) <==> Fits(r)) <==>
            !(r.sector * SECTOR_SIZE + r.dlen >= TWO64 && (r.sector * SECTOR_SIZE + r.dlen) % TWO64 <= DISK_SIZE)
    ensures r.sector * SECTOR_SIZE + r.dlen < TWO64 ==> (Accepted(r) <==> Fits(r)) && !Stray(r)
  {
  }

  /** Sector 2^55 starts at byte 2^64 and is accepted as if it were sector 0. */
  lemma RangeCheckFails()
    ensures var r := Request(0, 0, 0, 0, 0x80_0000_0000_0000, 0, 512, 0, 0);
            Accepted(r) && !Fits(r) && Offset(r) == 0
  {
  }

  /** Where the copy loop of an accepted request starts and ends. */
  lemma AcceptedRange(r: Request)
    requires Accepted(r)
    ensures !Stray(r) ==> Offset(r) + r.dlen <= DISK_SIZE
    ensures Stray(r) ==> 0 < r.dlen && OffDisk(r, 0)
  {
  }

  /**
   * The accepted requests whose copy loop leaves the disk array are exactly the
   * stray ones: those whose end, taken from the wrapped offset, passes 2^64.
   */
  lemma StrayExact(r: Request)
    requires Accepted(r)
    ensures Stray(r) <==> exists i :: 0 <= i < r.dlen && OffDisk(r, i)
  {
    AcceptedRange(r);
  }

  /** One sector at 2^55 - 1 ends at byte 2^64, which reads as 0: it is accepted, and none of its bytes is on the disk. */
  lemma StrayRequest()
    ensures var r := Request(0, 0, 0, 1, 0x7F_FFFF_FFFF_FFFF, 0, 512, 0, 0);
            Accepted(r) && !Fits(r) && Stray(r) && forall i :: 0 <= i < 512 ==> OffDisk(r, i)
  {
  }
}
