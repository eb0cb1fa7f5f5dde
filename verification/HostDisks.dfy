/**
 * The disks where they really are: arrays in host memory, in the address space that
 * descriptors reach. A disk's contents are whatever those bytes hold. Under the address
 * rule this machine does what the one of Tenants does, whose disks lie apart from
 * memory; without it a notification can change any disk byte.
 */
module HostDisks {
  import opened Words
  import opened HostMemory
  import opened Virtqueue
  import opened Stage2
  import opened DeviceLocality
  import opened DiskHistory
  import H = DiskHistory
  import B = BlockSpec
  import T = Tenants
  import G = GuestRules

  /** The disk array at a does not overlap [lo, lo+n). */
  predicate Clear(a: int, lo: int, n: int) { a + B.DISK_SIZE <= lo || lo + n <= a }

  predicate ArrayPlace(a: int) { Region(a, B.DISK_SIZE) }

  /** vb[0].disk and vb[1].disk lie at d[0] and d[1], apart from the VMs' RAM, the tables and each other. */
  predicate Placed(p: T.Placement, d: seq<u64>) {
    && p.Valid() && |d| == 2
    && (forall v :: 0 <= v < 2 ==> ArrayPlace(d[v]))
    && (forall v, w :: 0 <= v < 2 && 0 <= w < 2 ==> Clear(d[v], p.pa[w], GIB) && Clear(d[v], p.tb[w], 8 * ENTRIES))
    && Clear(d[0], d[1], B.DISK_SIZE)
  }

  function View(m: Mem, a: u64): B.Disk
    requires ArrayPlace(a)
  {
    m[a..a + B.DISK_SIZE]
  }

  // ---- one request ----

  /** A copy loop from memory to memory, byte after byte. */
  function Copy(m: Mem, dst: int, src: int, n: nat): Mem {
    if n == 0 then m
    else
      var c := Copy(m, dst, src, n - 1);
      Put(c, dst + n - 1, Byte(c, src + n - 1))
  }

  lemma {:induction false} CopyIsFill(m: Mem, dst: int, src: int, n: nat)
    requires Region(dst, n) && Region(src, n) && (dst + n <= src || src + n <= dst)
    ensures Copy(m, dst, src, n) == Fill(m, dst, Bytes(m, src, n))
  {
    if n > 0 {
      CopyIsFill(m, dst, src, n - 1);
      BytesSnoc(m, src, n);
      CopyByte(m, dst, src, n, Bytes(m, src, n - 1));
    }
  }

  lemma BytesSnoc(m: Mem, a: int, n: nat)
    requires 0 < n
    ensures Bytes(m, a, n) == Bytes(m, a, n - 1) + [Byte(m, a + n - 1)]
  {
  }

  lemma CopyByte(m: Mem, dst: int, src: int, n: nat, bs: seq<u8>)
    requires 0 < n && Region(dst, n) && Region(src, n) && (dst + n <= src || src + n <= dst) && |bs| == n - 1
    ensures var c := Fill(m, dst, bs); Put(c, dst + n - 1, Byte(c, src + n - 1)) == Fill(m, dst, bs + [Byte(m, src + n - 1)])
  {
    FillAt(m, dst, bs);
    FillSnoc(m, dst, bs, Byte(m, src + n - 1));
  }

  /** The data phase and the status byte, with the disk array at a. */
  function Transfer(m: Mem, a: u64, r: B.Request): Mem
    requires !B.Stray(r)
  {
    if !B.Accepted(r) then Put(m, r.saddr, 1)
    else if r.kind == 1 then Put(Copy(m, a + B.Offset(r), r.daddr, r.dlen), r.saddr, 0)
    else Put(Copy(m, r.daddr, a + B.Offset(r), r.dlen), r.saddr, 0)
  }

  /** m and m' agree outside the block at lo and the disk array at a. */
  ghost predicate SameElse(m: Mem, m': Mem, lo: int, a: int) {
    forall x :: 0 <= x < TWO64 && !(lo <= x < lo + GIB) && !(a <= x < a + B.DISK_SIZE) ==> m[x] == m'[x]
  }

  /** The array at a and the buffers of r, in the block at lo, do not overlap. */
  predicate Separate(r: B.Request, a: u64, lo: int) {
    && ArrayPlace(a) && BlockPlace(lo) && Clear(a, lo, GIB) && !B.Stray(r)
    && Inside(lo, r.saddr, 1) && (B.Accepted(r) ==> Inside(lo, r.daddr, r.dlen))
  }

  lemma WriteIs(m: Mem, a: u64, off: nat, n: nat, daddr: u64, saddr: u64, lo: int, bs: seq<u8>, f: Mem)
    requires ArrayPlace(a) && BlockPlace(lo) && Clear(a, lo, GIB) && off + n <= B.DISK_SIZE
    requires Inside(lo, saddr, 1) && Inside(lo, daddr, n) && bs == Bytes(m, daddr, n)
    requires f == Put(Copy(m, a + off, daddr, n), saddr, 0)
    ensures View(f, a) == B.Splice(View(m, a), off, bs) && Alike(Put(m, saddr, 0), f, lo) && SameElse(m, f, lo, a)
  {
    CopyIsFill(m, a + off, daddr, n);
    WriteEffect(m, a, off, bs, saddr, lo, f);
  }

  lemma WriteEffect(m: Mem, a: u64, off: nat, bs: seq<u8>, saddr: u64, lo: int, f: Mem)
    requires ArrayPlace(a) && BlockPlace(lo) && Clear(a, lo, GIB) && off + |bs| <= B.DISK_SIZE && Inside(lo, saddr, 1)
    requires f == Put(Fill(m, a + off, bs), saddr, 0)
    ensures View(f, a) == B.Splice(View(m, a), off, bs) && Alike(Put(m, saddr, 0), f, lo) && SameElse(m, f, lo, a)
  {
    var c := WriteCopies(m, a, off, bs);
    PutInside(c, saddr, 0, a, lo);
    WriteFrame(m, c, a, off, |bs|, saddr, lo);
  }

  lemma WriteCopies(m: Mem, a: u64, off: nat, bs: seq<u8>) returns (c: Mem)
    requires ArrayPlace(a) && off + |bs| <= B.DISK_SIZE
    ensures c == Fill(m, a + off, bs) && SameBut(m, c, a + off, |bs|) && View(c, a) == B.Splice(View(m, a), off, bs)
  {
    FillAt(m, a + off, bs);
    c := Fill(m, a + off, bs);
    SpliceView(m, c, a, off, bs);
  }

  lemma WriteFrame(m: Mem, c: Mem, a: u64, off: nat, n: nat, saddr: u64, lo: int)
    requires ArrayPlace(a) && BlockPlace(lo) && Clear(a, lo, GIB) && off + n <= B.DISK_SIZE && Inside(lo, saddr, 1)
    requires SameBut(m, c, a + off, n)
    ensures Alike(Put(m, saddr, 0), Put(c, saddr, 0), lo) && SameElse(m, Put(c, saddr, 0), lo, a)
  {
  }

  lemma PutInside(m: Mem, x: u64, v: u8, a: u64, lo: int)
    requires ArrayPlace(a) && BlockPlace(lo) && Clear(a, lo, GIB) && Inside(lo, x, 1)
    ensures View(Put(m, x, v), a) == View(m, a) && Confined(m, Put(m, x, v), lo)
  {
  }

  lemma SpliceView(m: Mem, f: Mem, a: u64, off: nat, bs: seq<u8>)
    requires ArrayPlace(a) && off + |bs| <= B.DISK_SIZE
    requires SameBut(m, f, a + off, |bs|) && f[a + off..a + off + |bs|] == bs
    ensures View(f, a) == B.Splice(View(m, a), off, bs)
  {
    var s := B.Splice(View(m, a), off, bs);
    forall k | 0 <= k < B.DISK_SIZE ensures View(f, a)[k] == s[k] {
      if off <= k < off + |bs| {
        assert f[a + k] == f[a + off..a + off + |bs|][k - off];
      }
    }
  }

  lemma ReadIs(m: Mem, a: u64, off: nat, n: nat, daddr: u64, saddr: u64, lo: int, bs: seq<u8>, f: Mem)
    requires ArrayPlace(a) && BlockPlace(lo) && Clear(a, lo, GIB) && off + n <= B.DISK_SIZE
    requires Inside(lo, saddr, 1) && Inside(lo, daddr, n) && bs == View(m, a)[off..off + n]
    requires f == Put(Copy(m, daddr, a + off, n), saddr, 0)
    ensures f == Put(Fill(m, daddr, bs), saddr, 0) && View(f, a) == View(m, a) && Confined(m, f, lo)
  {
    ReadCopies(m, a, off, n, daddr, bs);
    ReadFrame(m, a, daddr, bs, saddr, lo, f);
  }

  lemma ReadCopies(m: Mem, a: u64, off: nat, n: nat, daddr: u64, bs: seq<u8>)
    requires ArrayPlace(a) && off + n <= B.DISK_SIZE && Region(daddr, n) && bs == View(m, a)[off..off + n]
    requires daddr + n <= a + off || a + off + n <= daddr
    ensures Copy(m, daddr, a + off, n) == Fill(m, daddr, bs)
  {
    BytesView(m, a, off, n);
    CopyIsFill(m, daddr, a + off, n);
  }

  lemma ReadFrame(m: Mem, a: u64, daddr: u64, bs: seq<u8>, saddr: u64, lo: int, f: Mem)
    requires ArrayPlace(a) && BlockPlace(lo) && Clear(a, lo, GIB) && Inside(lo, saddr, 1) && Inside(lo, daddr, |bs|)
    requires f == Put(Fill(m, daddr, bs), saddr, 0)
    ensures View(f, a) == View(m, a) && Confined(m, f, lo)
  {
    var c := Fill(m, daddr, bs);
    FillAt(m, daddr, bs);
    ViewKept(m, c, a, lo);
    PutInside(c, saddr, 0, a, lo);
  }

  lemma BytesView(m: Mem, a: u64, off: nat, n: nat)
    requires ArrayPlace(a) && off + n <= B.DISK_SIZE
    ensures Bytes(m, a + off, n) == View(m, a)[off..off + n]
  {
    SliceOfSlice(m, a, off, n, B.DISK_SIZE);
  }

  lemma SliceOfSlice(m: seq<u8>, a: nat, off: nat, n: nat, size: nat)
    requires a + size <= |m| && off + n <= size
    ensures m[a + off..a + off + n] == m[a..a + size][off..off + n]
  {
    var x, y := m[a + off..a + off + n], m[a..a + size][off..off + n];
    forall k | 0 <= k < n ensures x[k] == y[k] {
    }
  }

  lemma TransferCases(m: Mem, a: u64, d: B.Disk, r: B.Request)
    requires !B.Stray(r)
    ensures !B.Accepted(r) ==> Transfer(m, a, r) == Put(m, r.saddr, 1) && B.Transfer(d, m, r) == (d, Put(m, r.saddr, 1))
    ensures B.Accepted(r) ==> B.Offset(r) + r.dlen <= B.DISK_SIZE
    ensures B.Accepted(r) && r.kind == 1 ==>
      && Transfer(m, a, r) == Put(Copy(m, a + B.Offset(r), r.daddr, r.dlen), r.saddr, 0)
      && B.Transfer(d, m, r) == (B.Splice(d, B.Offset(r), Bytes(m, r.daddr, r.dlen)), Put(m, r.saddr, 0))
    ensures B.Accepted(r) && r.kind != 1 ==>
      && Transfer(m, a, r) == Put(Copy(m, r.daddr, a + B.Offset(r), r.dlen), r.saddr, 0)
      && B.Transfer(d, m, r) == (d, Put(Fill(m, r.daddr, d[B.Offset(r)..B.Offset(r) + r.dlen]), r.saddr, 0))
  {
    if B.Accepted(r) {
      B.AcceptedRange(r);
    }
  }

  /** With buffers in the block, the array holds what a disk kept apart would, and the block is the same. */
  lemma TransferIs(m: Mem, a: u64, r: B.Request, lo: int, d: B.Disk, t: (B.Disk, Mem), f: Mem)
    requires Separate(r, a, lo) && d == View(m, a) && t == B.Transfer(d, m, r) && f == Transfer(m, a, r)
    ensures View(f, a) == t.0 && Alike(t.1, f, lo) && SameElse(m, f, lo, a)
  {
    TransferCases(m, a, d, r);
    if !B.Accepted(r) {
      PutInside(m, r.saddr, 1, a, lo);
    } else if r.kind == 1 {
      WriteCase(m, a, B.Offset(r), r.dlen, r.daddr, r.saddr, lo, d, t, f);
    } else {
      ReadCase(m, a, B.Offset(r), r.dlen, r.daddr, r.saddr, lo, d, t, f);
    }
  }

  lemma WriteCase(m: Mem, a: u64, off: nat, n: nat, daddr: u64, saddr: u64, lo: int, d: B.Disk, t: (B.Disk, Mem), f: Mem)
    requires ArrayPlace(a) && BlockPlace(lo) && Clear(a, lo, GIB) && off + n <= B.DISK_SIZE
    requires Inside(lo, saddr, 1) && Inside(lo, daddr, n) && d == View(m, a)
    requires f == Put(Copy(m, a + off, daddr, n), saddr, 0) && t == (B.Splice(d, off, Bytes(m, daddr, n)), Put(m, saddr, 0))
    ensures View(f, a) == t.0 && Alike(t.1, f, lo) && SameElse(m, f, lo, a)
  {
    WriteIs(m, a, off, n, daddr, saddr, lo, Bytes(m, daddr, n), f);
  }

  lemma ReadCase(m: Mem, a: u64, off: nat, n: nat, daddr: u64, saddr: u64, lo: int, d: B.Disk, t: (B.Disk, Mem), f: Mem)
    requires ArrayPlace(a) && BlockPlace(lo) && Clear(a, lo, GIB) && off + n <= B.DISK_SIZE
    requires Inside(lo, saddr, 1) && Inside(lo, daddr, n) && d == View(m, a)
    requires f == Put(Copy(m, daddr, a + off, n), saddr, 0) && t == (d, Put(Fill(m, daddr, d[off..off + n]), saddr, 0))
    ensures View(f, a) == t.0 && Alike(t.1, f, lo) && SameElse(m, f, lo, a)
  {
    ReadIs(m, a, off, n, daddr, saddr, lo, d[off..off + n], f);
  }

  /** One iteration of the request loop. */
  function Serve(b: B.Blk, q: Queue, m: Mem, a: u64): B.Outcome
    requires ArrayPlace(a) && 0 < q.num && !B.Stray(B.Decode(m, q, b.hostOff, b.lastAvail))
  {
    var r := B.Decode(m, q, b.hostOff, b.lastAvail);
    var m' := Publish(Transfer(m, a, r), q, r.head, r.dlen);
    B.Outcome(b.(disk := View(m', a), lastAvail := Next16(b.lastAvail), intStatus := SetBit0(b.intStatus), irq := true), m')
  }

  /** The machine f, started from memory mf, has done what the machine with its disk apart has done in o. */
  ghost predicate Sim(o: B.Outcome, f: B.Outcome, mf: Mem, a: u64, lo: int)
    requires ArrayPlace(a) && BlockPlace(lo)
  {
    f.b == o.b && f.b.disk == View(f.m, a) && Alike(o.m, f.m, lo) && SameElse(mf, f.m, lo, a)
  }

  lemma ServeIs(b: B.Blk, q: Queue, m: Mem, a: u64, lo: int)
    requires ArrayPlace(a) && BlockPlace(lo) && Clear(a, lo, GIB) && b.disk == View(m, a)
    requires 0 < q.num && RequestInside(b, q, m, lo)
    ensures Sim(B.ServeOne(b, q, m), Serve(b, q, m, a), m, a, lo)
  {
    var r := B.Decode(m, q, b.hostOff, b.lastAvail);
    var t, f1 := B.Transfer(b.disk, m, r), Transfer(m, a, r);
    var m1 := t.1;
    TransferIs(m, a, r, lo, b.disk, t, f1);
    PublishLocal(m1, f1, q, r.head, r.dlen, lo);
    PublishLocal(f1, f1, q, r.head, r.dlen, lo);
    ViewKept(f1, Publish(f1, q, r.head, r.dlen), a, lo);
  }

  lemma ViewKept(m: Mem, m': Mem, a: u64, lo: int)
    requires ArrayPlace(a) && BlockPlace(lo) && Clear(a, lo, GIB) && Confined(m, m', lo)
    ensures View(m', a) == View(m, a)
  {
  }

  /** The same from two memories that agree on the block. */
  lemma ServeSim(b: B.Blk, q: Queue, m: Mem, mf: Mem, a: u64, lo: int)
    requires ArrayPlace(a) && BlockPlace(lo) && Clear(a, lo, GIB) && b.disk == View(mf, a) && Alike(m, mf, lo)
    requires 0 < q.num && RequestInside(b, q, m, lo)
    ensures !B.Stray(B.Decode(mf, q, b.hostOff, b.lastAvail))
    ensures Sim(B.ServeOne(b, q, m), Serve(b, q, mf, a), mf, a, lo)
    ensures B.Decode(mf, q, b.hostOff, b.lastAvail) == B.Decode(m, q, b.hostOff, b.lastAvail)
    ensures var r := B.Decode(m, q, b.hostOff, b.lastAvail); Performed(r, mf) == Performed(r, m)
  {
    ServeOneLocal(b, q, m, mf, lo);
    ServeIs(b, q, mf, a, lo);
    PerformedLocal(b, q, m, mf, B.Decode(m, q, b.hostOff, b.lastAvail), lo);
  }

  // ---- batches ----

  predicate Safe(b: B.Blk, q: Queue, m: Mem, a: u64, to: u16)
    requires ArrayPlace(a) && 0 < q.num
    decreases Dist(b.lastAvail, to)
  {
    b.lastAvail != to ==>
      && !B.Stray(B.Decode(m, q, b.hostOff, b.lastAvail))
      && var o := Serve(b, q, m, a); Safe(o.b, q, o.m, a, to)
  }

  function Batch(b: B.Blk, q: Queue, m: Mem, a: u64, to: u16): B.Outcome
    requires ArrayPlace(a) && 0 < q.num && Safe(b, q, m, a, to)
    decreases Dist(b.lastAvail, to)
  {
    if b.lastAvail == to then B.Outcome(b, m)
    else var o := Serve(b, q, m, a); Batch(o.b, q, o.m, a, to)
  }

  /** The successful writes of the batch. */
  function Writes(b: B.Blk, q: Queue, m: Mem, a: u64, to: u16): Log
    requires ArrayPlace(a) && 0 < q.num && Safe(b, q, m, a, to)
    decreases Dist(b.lastAvail, to)
  {
    if b.lastAvail == to then []
    else
      var o := Serve(b, q, m, a);
      Performed(B.Decode(m, q, b.hostOff, b.lastAvail), m) + Writes(o.b, q, o.m, a, to)
  }

  /** What a batch must satisfy to be followed in both machines. */
  ghost predicate Followed(b: B.Blk, q: Queue, m: Mem, mf: Mem, a: u64, to: u16, lo: int) {
    && ArrayPlace(a) && BlockPlace(lo) && Clear(a, lo, GIB) && b.disk == View(mf, a) && Alike(m, mf, lo)
    && 0 < q.num && BatchInside(b, q, m, to, lo)
  }

  /** The first request of a batch, in both machines. */
  lemma FirstServed(b: B.Blk, q: Queue, m: Mem, mf: Mem, a: u64, to: u16, lo: int) returns (o: B.Outcome, f: B.Outcome)
    requires Followed(b, q, m, mf, a, to, lo) && b.lastAvail != to
    ensures RequestInside(b, q, m, lo) && !B.Stray(B.Decode(mf, q, b.hostOff, b.lastAvail))
    ensures o == B.ServeOne(b, q, m) && f == Serve(b, q, mf, a) && Sim(o, f, mf, a, lo)
    ensures Followed(o.b, q, o.m, f.m, a, to, lo) && o.b.lastAvail == Next16(b.lastAvail)
    ensures B.Decode(mf, q, b.hostOff, b.lastAvail) == B.Decode(m, q, b.hostOff, b.lastAvail)
    ensures Performed(B.Decode(mf, q, b.hostOff, b.lastAvail), mf) == Performed(B.Decode(m, q, b.hostOff, b.lastAvail), m)
  {
    ServeSim(b, q, m, mf, a, lo);
    o, f := B.ServeOne(b, q, m), Serve(b, q, mf, a);
    DistNext(b.lastAvail, to);
  }

  lemma {:induction false} BatchSim(b: B.Blk, q: Queue, m: Mem, mf: Mem, a: u64, to: u16, lo: int)
    requires Followed(b, q, m, mf, a, to, lo)
    ensures B.BatchSafe(b, q, m, to) && Safe(b, q, mf, a, to)
    ensures Sim(B.Batch(b, q, m, to), Batch(b, q, mf, a, to), mf, a, lo)
    ensures Writes(b, q, mf, a, to) == BatchLog(b, q, m, to)
    decreases Dist(b.lastAvail, to)
  {
    if b.lastAvail != to {
      var o, f := FirstServed(b, q, m, mf, a, to, lo);
      DistNext(b.lastAvail, to);
      BatchSim(o.b, q, o.m, f.m, a, to, lo);
    }
  }

  /** A batch that keeps to the block changes the disk array by replaying its writes and in no other way. */
  lemma BatchReplays(b: B.Blk, q: Queue, m: Mem, a: u64, to: u16, lo: int)
    requires Followed(b, q, m, m, a, to, lo)
    ensures Safe(b, q, m, a, to) && View(Batch(b, q, m, a, to).m, a) == Replay(View(m, a), Writes(b, q, m, a, to))
  {
    BatchSim(b, q, m, m, a, to, lo);
    H.BatchReplays(b, q, m, to);
  }

  predicate NotifySafe(b: B.Blk, m: Mem, a: u64)
    requires ArrayPlace(a)
  {
    B.Ready(b) ==> Safe(b, B.QueueOf(b), m, a, AvailIdx(m, B.QueueOf(b)))
  }

  /** A write to QueueNotify. */
  function Notify(b: B.Blk, m: Mem, a: u64): B.Outcome
    requires ArrayPlace(a) && NotifySafe(b, m, a)
  {
    if B.Ready(b) then Batch(b, B.QueueOf(b), m, a, AvailIdx(m, B.QueueOf(b))) else B.Outcome(b, m)
  }

  function NotifyWrites(b: B.Blk, m: Mem, a: u64): Log
    requires ArrayPlace(a) && NotifySafe(b, m, a)
  {
    if B.Ready(b) then Writes(b, B.QueueOf(b), m, a, AvailIdx(m, B.QueueOf(b))) else []
  }

  lemma NotifySim(b: B.Blk, m: Mem, mf: Mem, a: u64, lo: int)
    requires ArrayPlace(a) && BlockPlace(lo) && Clear(a, lo, GIB) && b.disk == View(mf, a) && Alike(m, mf, lo)
    requires BlockInside(b, m, lo)
    ensures B.NotifySafe(b, m) && NotifySafe(b, mf, a)
    ensures Sim(B.Notify(b, m), Notify(b, mf, a), mf, a, lo) && NotifyWrites(b, mf, a) == NotifyLog(b, m)
  {
    if B.Ready(b) {
      ReadySim(b, B.QueueOf(b), m, mf, a, lo);
    }
  }

  lemma ReadySim(b: B.Blk, q: Queue, m: Mem, mf: Mem, a: u64, lo: int)
    requires Followed(b, q, m, mf, a, AvailIdx(m, q), lo) && Inside(lo, q.Avail() + 2, 2)
    ensures AvailIdx(mf, q) == AvailIdx(m, q)
    ensures var to := AvailIdx(m, q);
      && B.BatchSafe(b, q, m, to) && Safe(b, q, mf, a, to)
      && Sim(B.Batch(b, q, m, to), Batch(b, q, mf, a, to), mf, a, lo) && Writes(b, q, mf, a, to) == BatchLog(b, q, m, to)
  {
    LoadLocal(m, mf, q.Avail() + 2, 2, lo);
    BatchSim(b, q, m, mf, a, AvailIdx(m, q), lo);
  }

  // ---- two tenants ----

  function WithDisk(vm: T.Vm, d: B.Disk): T.Vm { vm.(blk := vm.blk.(disk := d)) }

  /** What the devices' disks hold is what the arrays hold now. */
  function Reread(d: seq<u64>, s: T.System): T.System
    requires |d| == 2 && ArrayPlace(d[0]) && ArrayPlace(d[1]) && |s.vms| == 2
  {
    T.System(s.m, [WithDisk(s.vms[0], View(s.m, d[0])), WithDisk(s.vms[1], View(s.m, d[1]))])
  }

  predicate Coherent(d: seq<u64>, s: T.System)
    requires |d| == 2 && ArrayPlace(d[0]) && ArrayPlace(d[1])
  {
    |s.vms| == 2 && s.vms[0].blk.disk == View(s.m, d[0]) && s.vms[1].blk.disk == View(s.m, d[1])
  }

  predicate Defined(p: T.Placement, d: seq<u64>, s: T.System, e: T.Event)
    requires Placed(p, d)
  {
    |s.vms| == 2 && 0 <= e.vm < 2 && (e.act.BlockKick? ==> NotifySafe(s.vms[e.vm].blk, s.m, d[e.vm]))
  }

  /** A tenant's action, with both disks in memory. */
  function Step(p: T.Placement, d: seq<u64>, s: T.System, e: T.Event): (r: T.System)
    requires Placed(p, d) && Defined(p, d, s, e)
    ensures |r.vms| == 2
  {
    var v := e.vm;
    if e.act.BlockKick? then
      var o := Notify(s.vms[v].blk, s.m, d[v]);
      Reread(d, T.System(o.m, s.vms[v := s.vms[v].(blk := o.b)]))
    else
      var (m, vm) := T.Act(s.m, s.vms[v], p.tb[v], e.act);
      Reread(d, T.System(m, s.vms[v := vm]))
  }

  /** The successful writes VM v makes by event e. */
  function StepWrites(p: T.Placement, d: seq<u64>, s: T.System, e: T.Event, v: int): Log
    requires Placed(p, d) && Defined(p, d, s, e)
  {
    if e.vm == v && e.act.BlockKick? then NotifyWrites(s.vms[v].blk, s.m, d[v]) else []
  }

  predicate OnArray(d: seq<u64>, x: int)
    requires |d| == 2
  {
    d[0] <= x < d[0] + B.DISK_SIZE || d[1] <= x < d[1] + B.DISK_SIZE
  }

  /** s, whose disks lie apart, and f, whose disks lie in memory, are the same to everybody. */
  ghost predicate Related(p: T.Placement, d: seq<u64>, s: T.System, f: T.System) {
    && Placed(p, d) && Coherent(d, f) && s.vms == f.vms
    && forall x :: 0 <= x < TWO64 && !OnArray(d, x) ==> s.m[x] == f.m[x]
  }

  lemma RelatedBlock(p: T.Placement, d: seq<u64>, s: T.System, f: T.System, v: int)
    requires Related(p, d, s, f) && 0 <= v < 2
    ensures Alike(s.m, f.m, p.pa[v]) && T.SameView(p, s, f, v)
  {
    assert Clear(d[0], p.pa[v], GIB) && Clear(d[1], p.pa[v], GIB);
  }

  lemma RelatedInv(p: T.Placement, d: seq<u64>, s: T.System, f: T.System)
    requires Related(p, d, s, f)
    ensures T.Inv(p, s) <==> T.Inv(p, f)
  {
    forall v | 0 <= v < 2 ensures TableAt(s.m, p.tb[v]) == TableAt(f.m, p.tb[v]) {
      assert Clear(d[0], p.tb[v], 8 * ENTRIES) && Clear(d[1], p.tb[v], 8 * ENTRIES);
      TableSame(f.m, s.m, p.tb[v]);
    }
  }

  /** The two machines stay related when VM v acts in its block and on its own disk only, alike in both. */
  lemma Resettled(p: T.Placement, d: seq<u64>, s: T.System, f: T.System, v: int, vm: T.Vm, m: Mem, g: Mem)
    requires Related(p, d, s, f) && 0 <= v < 2 && Confined(s.m, m, p.pa[v]) && SameElse(f.m, g, p.pa[v], d[v])
    requires Alike(m, g, p.pa[v]) && vm.blk.disk == View(g, d[v])
    ensures Related(p, d, T.System(m, s.vms[v := vm]), Reread(d, T.System(g, f.vms[v := vm])))
  {
    OtherDiskKept(p, d, f, v, g);
    RereadIs(d, f.vms, v, vm, g);
    forall x | 0 <= x < TWO64 && !OnArray(d, x) ensures m[x] == g[x] {
    }
  }

  lemma OtherDiskKept(p: T.Placement, d: seq<u64>, f: T.System, v: int, g: Mem)
    requires Placed(p, d) && Coherent(d, f) && 0 <= v < 2 && SameElse(f.m, g, p.pa[v], d[v])
    ensures f.vms[1 - v].blk.disk == View(g, d[1 - v])
  {
    assert Clear(d[1 - v], p.pa[v], GIB);
  }

  /** Rereading changes nothing where the devices already hold what the arrays hold. */
  lemma RereadIs(d: seq<u64>, vms: seq<T.Vm>, v: int, vm: T.Vm, g: Mem)
    requires |d| == 2 && ArrayPlace(d[0]) && ArrayPlace(d[1]) && |vms| == 2 && 0 <= v < 2
    requires vm.blk.disk == View(g, d[v]) && vms[1 - v].blk.disk == View(g, d[1 - v])
    ensures Reread(d, T.System(g, vms[v := vm])) == T.System(g, vms[v := vm])
  {
    var now := vms[v := vm];
    assert WithDisk(now[0], View(g, d[0])) == now[0] && WithDisk(now[1], View(g, d[1])) == now[1];
    assert [now[0], now[1]] == now;
  }

  lemma KickSim(p: T.Placement, d: seq<u64>, s: T.System, f: T.System, e: T.Event)
    requires Related(p, d, s, f) && T.Inv(p, f) && T.Inv(p, s) && T.Allowed(p, s, e) && e.act.BlockKick?
    ensures Defined(p, d, f, e) && Related(p, d, T.Step(p, s, e), Step(p, d, f, e))
    ensures forall v :: StepWrites(p, d, f, e, v) == EventLog(s, e, v)
  {
    var v := e.vm;
    var b, lo := s.vms[v].blk, p.pa[v];
    RelatedBlock(p, d, s, f, v);
    assert Clear(d[v], lo, GIB);
    NotifySim(b, s.m, f.m, d[v], lo);
    BlockLocal(b, s.m, s.m, lo);
    var o, g := B.Notify(b, s.m), Notify(b, f.m, d[v]);
    Resettled(p, d, s, f, v, s.vms[v].(blk := o.b), o.m, g.m);
  }

  lemma ActKeepsDisk(m: Mem, vm: T.Vm, tb: u64, a: T.Action)
    requires !a.BlockKick?
    ensures T.Act(m, vm, tb, a).1.blk.disk == vm.blk.disk
  {
  }

  lemma ActSim(p: T.Placement, d: seq<u64>, s: T.System, f: T.System, e: T.Event)
    requires Related(p, d, s, f) && T.Inv(p, f) && T.Inv(p, s) && T.Allowed(p, s, e) && !e.act.BlockKick?
    ensures Defined(p, d, f, e) && Related(p, d, T.Step(p, s, e), Step(p, d, f, e))
  {
    var v := e.vm;
    RelatedBlock(p, d, s, f, v);
    T.ActLocal(p, s, f, e);
    T.ActLocal(p, f, f, e);
    var a, g := T.Act(s.m, s.vms[v], p.tb[v], e.act), T.Act(f.m, f.vms[v], p.tb[v], e.act);
    ActKeepsDisk(f.m, f.vms[v], p.tb[v], e.act);
    assert Clear(d[v], p.pa[v], GIB);
    ViewKept(f.m, g.0, d[v], p.pa[v]);
    Resettled(p, d, s, f, v, a.1, a.0, g.0);
  }

  /** Every allowed action does the same in both machines. */
  lemma StepSim(p: T.Placement, d: seq<u64>, s: T.System, f: T.System, e: T.Event)
    requires Related(p, d, s, f) && T.Inv(p, f) && T.Allowed(p, f, e)
    ensures T.Inv(p, s) && T.Allowed(p, s, e) && Defined(p, d, f, e)
    ensures Related(p, d, T.Step(p, s, e), Step(p, d, f, e)) && T.Inv(p, Step(p, d, f, e))
    ensures forall v :: StepWrites(p, d, f, e, v) == EventLog(s, e, v)
  {
    RelatedInv(p, d, s, f);
    RelatedBlock(p, d, s, f, e.vm);
    T.ActLocal(p, f, s, e);
    if e.act.BlockKick? {
      KickSim(p, d, s, f, e);
    } else {
      ActSim(p, d, s, f, e);
    }
    T.InvKept(p, s, e);
    RelatedInv(p, d, T.Step(p, s, e), Step(p, d, f, e));
  }

  lemma SelfRelated(p: T.Placement, d: seq<u64>, f: T.System)
    requires Placed(p, d) && Coherent(d, f)
    ensures Related(p, d, f, f)
  {
  }

  // ---- whole runs ----

  predicate RunDefined(p: T.Placement, d: seq<u64>, f: T.System, es: seq<T.Event>)
    requires Placed(p, d)
    decreases es
  {
    es != [] ==> Defined(p, d, f, es[0]) && RunDefined(p, d, Step(p, d, f, es[0]), es[1..])
  }

  function Run(p: T.Placement, d: seq<u64>, f: T.System, es: seq<T.Event>): (r: T.System)
    requires Placed(p, d) && RunDefined(p, d, f, es)
    ensures |f.vms| == 2 ==> |r.vms| == 2
    decreases es
  {
    if es == [] then f else Run(p, d, Step(p, d, f, es[0]), es[1..])
  }

  /** The successful writes VM v makes in a run. */
  function RunWrites(p: T.Placement, d: seq<u64>, f: T.System, es: seq<T.Event>, v: int): Log
    requires Placed(p, d) && RunDefined(p, d, f, es)
    decreases es
  {
    if es == [] then [] else StepWrites(p, d, f, es[0], v) + RunWrites(p, d, Step(p, d, f, es[0]), es[1..], v)
  }

  /** Where runs start: tables built, offsets set, disks in their arrays. */
  ghost predicate Inv(p: T.Placement, d: seq<u64>, f: T.System) { Placed(p, d) && Coherent(d, f) && T.Inv(p, f) }

  /** Any state that set-up leaves is one, once the disks are read from where they are placed. */
  lemma StartOk(p: T.Placement, d: seq<u64>, s: T.System)
    requires Placed(p, d) && T.Inv(p, s)
    ensures Inv(p, d, Reread(d, s))
  {
  }

  lemma StepOk(p: T.Placement, d: seq<u64>, f: T.System, e: T.Event)
    requires Inv(p, d, f) && T.Allowed(p, f, e)
    ensures Defined(p, d, f, e) && Inv(p, d, Step(p, d, f, e))
  {
    SelfRelated(p, d, f);
    StepSim(p, d, f, f, e);
  }

  /** Every notification of the run keeps to its VM's block. */
  ghost predicate RunAllowed(p: T.Placement, d: seq<u64>, f: T.System, es: seq<T.Event>): (ok: bool)
    requires Inv(p, d, f)
    ensures ok ==> RunDefined(p, d, f, es)
    decreases es
  {
    es != [] ==>
      && T.Allowed(p, f, es[0])
      && (StepOk(p, d, f, es[0]); RunAllowed(p, d, Step(p, d, f, es[0]), es[1..]))
  }

  lemma AllowedSim(p: T.Placement, d: seq<u64>, s: T.System, f: T.System, e: T.Event)
    requires Related(p, d, s, f) && T.Inv(p, s) && T.Inv(p, f) && 0 <= e.vm < 2
    ensures T.Allowed(p, s, e) <==> T.Allowed(p, f, e)
  {
    RelatedBlock(p, d, s, f, e.vm);
    if T.Allowed(p, s, e) {
      T.ActLocal(p, s, f, e);
    }
    if T.Allowed(p, f, e) {
      T.ActLocal(p, f, s, e);
    }
  }

  /** A run keeps to the blocks in one machine if and only if it does in the other. */
  lemma {:induction false} RunsAllowed(p: T.Placement, d: seq<u64>, s: T.System, f: T.System, es: seq<T.Event>)
    requires Related(p, d, s, f) && T.Inv(p, s) && Inv(p, d, f) && forall e :: e in es ==> 0 <= e.vm < 2
    ensures RunAllowed(p, d, f, es) <==> T.RunAllowed(p, s, es)
    decreases es
  {
    if es != [] {
      var e := es[0];
      assert e in es;
      AllowedSim(p, d, s, f, e);
      if T.Allowed(p, f, e) {
        StepSim(p, d, s, f, e);
        StepOk(p, d, f, e);
        T.InvKept(p, s, e);
        RunsAllowed(p, d, T.Step(p, s, e), Step(p, d, f, e), es[1..]);
      }
    }
  }

  /** And then both machines end alike, having made the same writes. */
  lemma {:induction false} RunSim(p: T.Placement, d: seq<u64>, s: T.System, f: T.System, es: seq<T.Event>, v: int)
    requires Related(p, d, s, f) && T.Inv(p, s) && Inv(p, d, f) && RunAllowed(p, d, f, es) && T.RunAllowed(p, s, es)
    ensures Related(p, d, T.Run(p, s, es), Run(p, d, f, es)) && RunWrites(p, d, f, es, v) == RunLog(p, s, es, v)
    decreases es
  {
    if es != [] {
      var e := es[0];
      StepSim(p, d, s, f, e);
      StepOk(p, d, f, e);
      T.InvKept(p, s, e);
      RunSim(p, d, T.Step(p, s, e), Step(p, d, f, e), es[1..], v);
    }
  }

  lemma {:induction false} AllowedVms(p: T.Placement, d: seq<u64>, f: T.System, es: seq<T.Event>)
    requires Inv(p, d, f) && RunAllowed(p, d, f, es)
    ensures forall e :: e in es ==> 0 <= e.vm < 2
    decreases es
  {
    if es != [] {
      StepOk(p, d, f, es[0]);
      AllowedVms(p, d, Step(p, d, f, es[0]), es[1..]);
    }
  }

  /** The run of the machine with disks apart, from the same state. */
  lemma RunApart(p: T.Placement, d: seq<u64>, f: T.System, es: seq<T.Event>, v: int)
    requires Inv(p, d, f) && RunAllowed(p, d, f, es)
    ensures T.RunAllowed(p, f, es) && Related(p, d, T.Run(p, f, es), Run(p, d, f, es))
    ensures RunWrites(p, d, f, es, v) == RunLog(p, f, es, v)
  {
    SelfRelated(p, d, f);
    AllowedVms(p, d, f, es);
    RunsAllowed(p, d, f, f, es);
    RunSim(p, d, f, f, es, v);
  }

  /**
   * After any interleaving that keeps to the blocks, the bytes of a tenant's disk array are
   * the bytes they were with the tenant's own successful writes replayed.
   */
  lemma DiskIsOwnHistory(p: T.Placement, d: seq<u64>, f: T.System, es: seq<T.Event>, v: int)
    requires Inv(p, d, f) && RunAllowed(p, d, f, es) && 0 <= v < 2
    ensures View(Run(p, d, f, es).m, d[v]) == Replay(View(f.m, d[v]), RunWrites(p, d, f, es, v))
  {
    RunApart(p, d, f, es, v);
    DisksReplay(p, f, es, v);
    RelatedDisk(p, d, T.Run(p, f, es), Run(p, d, f, es), v);
    RelatedDisk(p, d, f, f, v);
  }

  lemma RelatedDisk(p: T.Placement, d: seq<u64>, s: T.System, f: T.System, v: int)
    requires Related(p, d, s, f) && 0 <= v < 2
    ensures |s.vms| == 2 && s.vms[v].blk.disk == View(f.m, d[v])
  {
  }

  lemma ViewsFollow(p: T.Placement, d: seq<u64>, s: T.System, f: T.System, s': T.System, f': T.System, v: int)
    requires Related(p, d, s, f) && Related(p, d, s', f') && 0 <= v < 2 && T.SameView(p, s, s', v)
    ensures T.SameView(p, f, f', v) && View(f.m, d[v]) == View(f'.m, d[v])
  {
    RelatedBlock(p, d, s, f, v);
    RelatedBlock(p, d, s', f', v);
    RelatedDisk(p, d, s, f, v);
    RelatedDisk(p, d, s', f', v);
  }

  /** Tenants that keep to their blocks do not notice each other: RAM, devices, disk array, output and history are as alone. */
  lemma RunsAlone(p: T.Placement, d: seq<u64>, f: T.System, es: seq<T.Event>, v: int)
    requires Inv(p, d, f) && RunAllowed(p, d, f, es) && 0 <= v < 2
    ensures RunAllowed(p, d, f, T.Own(es, v)) && RunWrites(p, d, f, es, v) == RunWrites(p, d, f, T.Own(es, v), v)
    ensures T.SameView(p, Run(p, d, f, es), Run(p, d, f, T.Own(es, v)), v)
    ensures View(Run(p, d, f, es).m, d[v]) == View(Run(p, d, f, T.Own(es, v)).m, d[v])
  {
    RunApart(p, d, f, es, v);
    OwnAllowed(p, d, f, es, v);
    RunApart(p, d, f, T.Own(es, v), v);
    ViewsFollow(p, d, T.Run(p, f, es), Run(p, d, f, es), T.Run(p, f, T.Own(es, v)), Run(p, d, f, T.Own(es, v)), v);
  }

  lemma OwnAllowed(p: T.Placement, d: seq<u64>, f: T.System, es: seq<T.Event>, v: int)
    requires Inv(p, d, f) && T.RunAllowed(p, f, es) && 0 <= v < 2
    ensures T.RunAllowed(p, f, T.Own(es, v)) && RunAllowed(p, d, f, T.Own(es, v))
    ensures T.SameView(p, T.Run(p, f, es), T.Run(p, f, T.Own(es, v)), v)
    ensures RunLog(p, f, es, v) == RunLog(p, f, T.Own(es, v), v)
  {
    SelfRelated(p, d, f);
    HistoryAlone(p, f, f, es, v);
    T.RunsAlone(p, f, f, es, v);
    OwnVms(es, v);
    RunsAllowed(p, d, f, f, T.Own(es, v));
  }

  lemma {:induction false} OwnVms(es: seq<T.Event>, v: int)
    ensures forall e :: e in T.Own(es, v) ==> e.vm == v
    decreases es
  {
    if es != [] {
      OwnVms(es[1..], v);
    }
  }

  /** In particular tenants that each, running alone, follow the rules whenever they notify. */
  lemma RulesKeepDisks(p: T.Placement, d: seq<u64>, f: T.System, es: seq<T.Event>)
    requires Inv(p, d, f) && G.RunCompliant(p, f, T.Own(es, 0)) && G.RunCompliant(p, f, T.Own(es, 1))
    requires forall e :: e in es ==> 0 <= e.vm < 2
    ensures RunAllowed(p, d, f, es)
  {
    G.TenantsSeparate(p, f, es, 0);
    SelfRelated(p, d, f);
    RunsAllowed(p, d, f, f, es);
  }

  // ---- reads ----

  /** A batch that keeps to the block does so up to any position, and in the request there. */
  lemma {:induction false} InsidePrefix(b: B.Blk, q: Queue, m: Mem, mid: u16, to: u16, lo: int)
    requires BlockPlace(lo) && 0 < q.num && BatchInside(b, q, m, to, lo) && Dist(b.lastAvail, mid) < Dist(b.lastAvail, to)
    ensures BatchInside(b, q, m, mid, lo) && B.BatchSafe(b, q, m, mid)
    ensures var o := B.Batch(b, q, m, mid); RequestInside(o.b, q, o.m, lo)
    decreases Dist(b.lastAvail, mid)
  {
    if b.lastAvail != mid {
      var o := B.ServeOne(b, q, m);
      DistNext(b.lastAvail, mid);
      DistNext(b.lastAvail, to);
      InsidePrefix(o.b, q, o.m, mid, to, lo);
    }
  }

  /**
   * In a batch that keeps to the block at lo, g is the state the request at position mid is
   * served in, and r that request: an accepted read, of whose buffer i is a byte.
   */
  ghost predicate ReadServed(b: B.Blk, q: Queue, m: Mem, a: u64, mid: u16, to: u16, lo: int, g: B.Outcome, r: B.Request, i: int) {
    && Followed(b, q, m, m, a, to, lo) && Dist(b.lastAvail, mid) < Dist(b.lastAvail, to) && Safe(b, q, m, a, mid)
    && g == Batch(b, q, m, a, mid) && r == B.Decode(g.m, q, g.b.hostOff, g.b.lastAvail)
    && B.Accepted(r) && r.kind != 1 && 0 <= i < r.dlen && Wrap(r.daddr + i) != r.saddr
  }

  /** That request meets, in its array, the seed with the writes so far replayed, and has its buffers in the block. */
  lemma ServedMeets(b: B.Blk, q: Queue, m: Mem, a: u64, mid: u16, to: u16, lo: int, g: B.Outcome, r: B.Request, i: int,
                    seed: B.Disk, before: Log, log: Log)
    requires ReadServed(b, q, m, a, mid, to, lo, g, r, i) && View(m, a) == Replay(seed, before)
    requires log == before + Writes(b, q, m, a, mid)
    ensures View(g.m, a) == Replay(seed, log) && Separate(r, a, lo)
  {
    InsidePrefix(b, q, m, mid, to, lo);
    BatchReplays(b, q, m, a, mid, lo);
    ReplayConcat(seed, before, Writes(b, q, m, a, mid));
    RequestSeparate(b, q, m, a, mid, lo, g, r);
  }

  lemma RequestSeparate(b: B.Blk, q: Queue, m: Mem, a: u64, mid: u16, lo: int, g: B.Outcome, r: B.Request)
    requires Followed(b, q, m, m, a, mid, lo) && Safe(b, q, m, a, mid) && g == Batch(b, q, m, a, mid)
    requires B.BatchSafe(b, q, m, mid) && RequestInside(B.Batch(b, q, m, mid).b, q, B.Batch(b, q, m, mid).m, lo)
    requires r == B.Decode(g.m, q, g.b.hostOff, g.b.lastAvail)
    ensures Separate(r, a, lo)
  {
    var o := B.Batch(b, q, m, mid);
    BatchSim(b, q, m, m, a, mid, lo);
    ServeOneLocal(o.b, q, o.m, g.m, lo);
  }

  lemma ReadGets(m: Mem, a: u64, r: B.Request, lo: int, seed: B.Disk, log: Log, i: int)
    requires Separate(r, a, lo) && B.Accepted(r) && r.kind != 1 && 0 <= i < r.dlen && Wrap(r.daddr + i) != r.saddr
    requires View(m, a) == Replay(seed, log)
    ensures Transfer(m, a, r)[Wrap(r.daddr + i)] == Latest(seed, log, B.Offset(r) + i)
  {
    ReadSame(m, a, View(m, a), r, lo);
    ReadCopiesLatest(seed, log, View(m, a), m, r, i);
  }

  lemma ReadSame(m: Mem, a: u64, d: B.Disk, r: B.Request, lo: int)
    requires Separate(r, a, lo) && B.Accepted(r) && r.kind != 1 && d == View(m, a)
    ensures Transfer(m, a, r) == B.Transfer(d, m, r).1
  {
    TransferCases(m, a, d, r);
    ReadIs(m, a, B.Offset(r), r.dlen, r.daddr, r.saddr, lo, d[B.Offset(r)..B.Offset(r) + r.dlen], Transfer(m, a, r));
  }

  /**
   * A read returns the most recent write. At any point of any run that keeps to the blocks,
   * let VM v notify its device, keeping to its block, and let a request of that batch be an
   * accepted read. Every byte of its buffer (the status byte aside) receives what the latest
   * write to its position left there: over all of v's writes in the run so far and those of
   * the batch before this request, or else what the array held at the start.
   */
  lemma RunReadsLatest(p: T.Placement, d: seq<u64>, f: T.System, es: seq<T.Event>, v: int, now: T.System, before: Log,
                       b: B.Blk, q: Queue, m: Mem, mid: u16, to: u16, g: B.Outcome, r: B.Request, i: int, log: Log)
    requires Inv(p, d, f) && RunAllowed(p, d, f, es) && 0 <= v < 2
    requires now == Run(p, d, f, es) && before == RunWrites(p, d, f, es, v)
    requires |now.vms| == 2 && b == now.vms[v].blk && m == now.m && B.Ready(b) && q == B.QueueOf(b) && to == AvailIdx(m, q)
    requires ReadServed(b, q, m, d[v], mid, to, p.pa[v], g, r, i)
    requires log == before + Writes(b, q, m, d[v], mid)
    ensures !B.Stray(r) && Transfer(g.m, d[v], r)[Wrap(r.daddr + i)] == Latest(View(f.m, d[v]), log, B.Offset(r) + i)
  {
    DiskIsOwnHistory(p, d, f, es, v);
    ServedMeets(b, q, m, d[v], mid, to, p.pa[v], g, r, i, View(f.m, d[v]), before, log);
    ReadGets(g.m, d[v], r, p.pa[v], View(f.m, d[v]), log, i);
  }

  // ---- without the rule ----

  lemma OneServed(b: B.Blk, q: Queue, m: Mem, a: u64, hh: u64, at: u64, x: u64)
    requires ArrayPlace(a) && G.Waiting(b, q, m, hh, at, x)
    ensures NotifySafe(b, m, a) && Notify(b, m, a).m[x] != m[x] && NotifyWrites(b, m, a) == []
  {
    var r := B.Decode(m, q, b.hostOff, b.lastAvail);
    G.OneDecoded(b, q, m, hh, at, G.OddSector(m[x]), r);
    var t := Transfer(m, a, r);
    assert t[x] != m[x];
    PublishEffect(t, q, r.head, r.dlen);
    OneEnds(b, q, m, a, r);
  }

  lemma OneEnds(b: B.Blk, q: Queue, m: Mem, a: u64, r: B.Request)
    requires ArrayPlace(a) && 0 < q.num && AvailIdx(m, q) == Next16(b.lastAvail)
    requires r == B.Decode(m, q, b.hostOff, b.lastAvail) && !B.Stray(r) && r.kind != 1
    ensures Safe(b, q, m, a, AvailIdx(m, q)) && Batch(b, q, m, a, AvailIdx(m, q)) == Serve(b, q, m, a)
    ensures Writes(b, q, m, a, AvailIdx(m, q)) == []
  {
    var o := Serve(b, q, m, a);
    assert o.b.lastAvail == AvailIdx(m, q);
    assert Safe(o.b, q, o.m, a, AvailIdx(m, q)) && Batch(o.b, q, o.m, a, AvailIdx(m, q)) == o;
  }

  /**
   * Without the address rule no disk is safe. In every state, for every byte of either
   * disk, there are contents of VM v's own RAM and registers with which a notification by
   * v changes that byte although nobody writes to that disk.
   */
  lemma DiskUnchecked(p: T.Placement, d: seq<u64>, f: T.System, v: int, w: int, k: nat) returns (f': T.System)
    requires Inv(p, d, f) && 0 <= v < 2 && 0 <= w < 2 && k < B.DISK_SIZE
    ensures Inv(p, d, f') && Confined(f.m, f'.m, p.pa[v]) && View(f'.m, d[w]) == View(f.m, d[w])
    ensures var e := T.Event(v, T.BlockKick);
      && Defined(p, d, f', e) && StepWrites(p, d, f', e, w) == []
      && View(Step(p, d, f', e).m, d[w])[k] != View(f.m, d[w])[k]
  {
    var b, hh, at;
    f', b, hh, at := DiskPrimed(p, d, f, v, w, k, d[w] + k, Queue(p.pa[v] + 0x1000, 2));
    UncheckedKick(p, d, f', v, w, b, k, d[w] + k, Queue(p.pa[v] + 0x1000, 2), hh, at);
  }

  lemma DiskPrimed(p: T.Placement, d: seq<u64>, f: T.System, v: int, w: int, k: nat, x: u64, q: Queue)
    returns (f': T.System, b: B.Blk, hh: u64, at: u64)
    requires Inv(p, d, f) && 0 <= v < 2 && 0 <= w < 2 && k < B.DISK_SIZE && x == d[w] + k && q == Queue(p.pa[v] + 0x1000, 2)
    ensures Inv(p, d, f') && Confined(f.m, f'.m, p.pa[v]) && View(f'.m, d[w]) == View(f.m, d[w])
    ensures b == f'.vms[v].blk && G.Waiting(b, q, f'.m, hh, at, x)
  {
    hh, at := p.pa[v] + 0x3000, Wrap(x - p.Offset(v));
    OffBlock(p, d, v, w, k, x);
    f', b := G.Primed(p, f, v, x, q);
    assert Inv(p, d, f') && View(f'.m, d[w]) == View(f.m, d[w]) by {
      PrimedInv(p, d, f, f', v, w);
    }
  }

  lemma OffBlock(p: T.Placement, d: seq<u64>, v: int, w: int, k: nat, x: u64)
    requires Placed(p, d) && 0 <= v < 2 && 0 <= w < 2 && k < B.DISK_SIZE && x == d[w] + k
    ensures !(p.pa[v] <= x < p.pa[v] + GIB)
  {
    assert Clear(d[w], p.pa[v], GIB);
  }

  lemma PrimedInv(p: T.Placement, d: seq<u64>, f: T.System, f': T.System, v: int, w: int)
    requires Inv(p, d, f) && T.Inv(p, f') && 0 <= v < 2 && 0 <= w < 2 && Confined(f.m, f'.m, p.pa[v])
    requires f'.vms == f.vms[v := f.vms[v].(blk := G.WithQueue(f.vms[v].blk, p.ipa))]
    ensures Inv(p, d, f') && View(f'.m, d[w]) == View(f.m, d[w])
  {
    PrimedCoherent(p, d, f, f', v);
  }

  lemma UncheckedKick(p: T.Placement, d: seq<u64>, f: T.System, v: int, w: int, b: B.Blk, k: nat, x: u64, q: Queue,
                      hh: u64, at: u64)
    requires Placed(p, d) && |f.vms| == 2 && 0 <= v < 2 && 0 <= w < 2 && k < B.DISK_SIZE && x == d[w] + k
    requires b == f.vms[v].blk && G.Waiting(b, q, f.m, hh, at, x)
    ensures var e := T.Event(v, T.BlockKick);
      && Defined(p, d, f, e) && StepWrites(p, d, f, e, w) == []
      && View(Step(p, d, f, e).m, d[w])[k] != View(f.m, d[w])[k]
  {
    OneServed(b, q, f.m, d[v], hh, at, x);
    KickMemory(p, d, f, v, w, b, f.m);
    ViewAt(f.m, d[w], k);
    ViewAt(Step(p, d, f, T.Event(v, T.BlockKick)).m, d[w], k);
  }

  lemma KickMemory(p: T.Placement, d: seq<u64>, f: T.System, v: int, w: int, b: B.Blk, m: Mem)
    requires Placed(p, d) && |f.vms| == 2 && 0 <= v < 2 && 0 <= w < 2 && b == f.vms[v].blk && m == f.m
    requires NotifySafe(b, m, d[v]) && NotifyWrites(b, m, d[v]) == []
    ensures var e := T.Event(v, T.BlockKick);
      Defined(p, d, f, e) && Step(p, d, f, e).m == Notify(b, m, d[v]).m && StepWrites(p, d, f, e, w) == []
  {
  }

  lemma ViewAt(m: Mem, a: u64, k: nat)
    requires ArrayPlace(a) && k < B.DISK_SIZE
    ensures View(m, a)[k] == m[a + k]
  {
  }

  lemma PrimedCoherent(p: T.Placement, d: seq<u64>, f: T.System, f': T.System, v: int)
    requires Placed(p, d) && Coherent(d, f) && 0 <= v < 2 && p.ipa < IPA_LIMIT && Confined(f.m, f'.m, p.pa[v])
    requires f'.vms == f.vms[v := f.vms[v].(blk := G.WithQueue(f.vms[v].blk, p.ipa))]
    ensures Coherent(d, f') && View(f'.m, d[0]) == View(f.m, d[0]) && View(f'.m, d[1]) == View(f.m, d[1])
  {
    assert Clear(d[0], p.pa[v], GIB) && Clear(d[1], p.pa[v], GIB);
    ViewKept(f.m, f'.m, d[0], p.pa[v]);
    ViewKept(f.m, f'.m, d[1], p.pa[v]);
  }
}
