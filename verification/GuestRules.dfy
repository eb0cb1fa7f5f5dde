/**
 * What a guest must do so that its devices stay in its block, in terms of the guest
 * addresses it writes into its queue; and what happens otherwise, for the devices add
 * the offset to whatever address a descriptor holds and check nothing.
 */
module GuestRules {
  import opened Words
  import opened HostMemory
  import opened Virtqueue
  import opened Stage2
  import opened DeviceLocality
  import opened Tenants
  import B = BlockSpec
  import R = BlockRefinement
  import C = ConsoleSpec
  import Q = QueueRuns

  // ---- queues ----

  lemma ProductFits(a: u32, b: u32)
    ensures 0 <= a * b < TWO64
  {
    MulMonotone(a, b, TWO32 - 1);
  }

  lemma MulMonotone(a: int, b: int, c: int)
    requires 0 <= a <= c && 0 <= b
    ensures 0 <= a * b <= c * b
  {
  }

  /** The queue at the guest addresses the guest configured. */
  function GuestQueue(pfn: u32, pageSize: u32, num: u32): Queue {
    ProductFits(pfn, pageSize);
    Queue(pfn * pageSize, num)
  }

  /** [lo, lo + 1 GiB) holds the whole queue. */
  predicate QueueInside(q: Queue, lo: int) { q.LaidOut() && lo <= q.base && q.Used() + 4 + 8 * q.num <= lo + GIB }

  predicate Blocks(ipa: u64, pa: u64) { ipa < IPA_LIMIT && pa < PA_LIMIT && ipa % GIB == 0 && pa % GIB == 0 }

  /** The offset addition on the block and its end. */
  lemma Shifted(ipa: u64, pa: u64, a: u64)
    requires Blocks(ipa, pa) && ipa <= a <= ipa + GIB
    ensures Wrap(a + Wrap(pa - ipa)) == pa + (a - ipa)
  {
  }

  /** A queue the guest placed in its block is, for the device, in the host block. */
  lemma QueueTranslated(ipa: u64, pa: u64, g: Queue, q: Queue)
    requires Blocks(ipa, pa) && QueueInside(g, ipa) && q == Queue(Wrap(g.base + Wrap(pa - ipa)), g.num)
    ensures QueueInside(q, pa)
  {
    QueueIsWalk(ipa, pa, g, q);
    assert q.InRings(q.base) && q.InUsed(q.Used() + 3 + 8 * q.num);
  }

  lemma RingsInside(q: Queue, last: u16, lo: int)
    requires QueueInside(q, lo)
    ensures Inside(lo, q.Avail() + 2, 2) && HeadInside(q, last, lo)
    ensures forall i: u16 :: i < q.num ==> Inside(lo, q.base + 16 * i, 16)
  {
    q.LayoutDisjoint(0);
  }

  lemma UsedIsInside(m: Mem, q: Queue, lo: int)
    requires QueueInside(q, lo)
    ensures UsedInside(m, q, lo)
  {
    q.LayoutDisjoint(0);
  }

  // ---- block device ----

  /** The three guest ranges of the chain at head lie in the guest block. */
  predicate GuestChain(m: Mem, q: Queue, head: u16, ipa: int) {
    var hnext := DescNext(m, q, head);
    && Inside(ipa, DescAddr(m, q, head), 16)
    && Inside(ipa, DescAddr(m, q, hnext), DescLen(m, q, hnext))
    && Inside(ipa, DescAddr(m, q, DescNext(m, q, hnext)), 1)
  }

  /** The three host ranges of a decoded chain. */
  predicate HostChain(r: B.Request, lo: int) {
    Inside(lo, r.haddr, 16) && Inside(lo, r.daddr, r.dlen) && Inside(lo, r.saddr, 1)
  }

  lemma ChainTranslated(m: Mem, q: Queue, head: u16, r: B.Request, ipa: u64, pa: u64)
    requires Blocks(ipa, pa) && r == B.Follow(m, q, Wrap(pa - ipa), head) && GuestChain(m, q, head, ipa)
    ensures HostChain(r, pa)
  {
    B.FollowIsChain(m, q, Wrap(pa - ipa), head, r);
    Shifted(ipa, pa, DescAddr(m, q, head));
    Shifted(ipa, pa, DescAddr(m, q, r.hnext));
    Shifted(ipa, pa, DescAddr(m, q, r.dnext));
  }

  lemma {:induction false} PendingFollows(m: Mem, q: Queue, off: u64, last: u16, n: nat, r: B.Request)
    requires 0 < q.num && r in R.Pending(m, q, off, last, n)
    ensures r == B.Follow(m, q, off, r.head)
    decreases n
  {
    var first := B.Decode(m, q, off, last);
    if r == first {
      B.FollowIsChain(m, q, off, HeadAt(m, q, last), r);
    } else {
      PendingFollows(m, q, off, Next16(last), n - 1, r);
    }
  }

  lemma OneInside(b: B.Blk, q: Queue, m: Mem, r: B.Request, lo: int)
    requires QueueInside(q, lo) && r == B.Decode(m, q, b.hostOff, b.lastAvail)
    requires R.GoodChain(q, r) && HostChain(r, lo) && !B.Stray(r)
    ensures RequestInside(b, q, m, lo)
  {
    RingsInside(q, b.lastAvail, lo);
    UsedIsInside(B.Transfer(b.disk, m, r).1, q, lo);
  }

  /** The first request of such a batch, and the batch it leaves. */
  lemma FirstInside(b: B.Blk, q: Queue, m: Mem, n: nat, rs: seq<B.Request>, lo: int) returns (o: B.Outcome)
    requires 0 < n && 0 < q.num && rs == R.Pending(m, q, b.hostOff, b.lastAvail, n)
    requires R.WellFormed(q, rs) && QueueInside(q, lo) && forall r :: r in rs ==> HostChain(r, lo)
    ensures RequestInside(b, q, m, lo) && o == B.ServeOne(b, q, m)
    ensures o.b.lastAvail == Next16(b.lastAvail) && rs[1..] == R.Pending(o.m, q, o.b.hostOff, o.b.lastAvail, n - 1)
    ensures R.WellFormed(q, rs[1..]) && forall r :: r in rs[1..] ==> HostChain(r, lo)
  {
    assert rs[0] in rs && forall r :: r in rs[1..] ==> r in rs;
    R.FirstStep(b, q, m, n, rs);
    o := R.FirstOutcome(b, q, m, n, rs);
    OneInside(b, q, m, rs[0], lo);
  }

  lemma BatchInsideCons(b: B.Blk, q: Queue, m: Mem, to: u16, lo: int, o: B.Outcome)
    requires 0 < q.num && b.lastAvail != to && RequestInside(b, q, m, lo) && o == B.ServeOne(b, q, m)
    requires BatchInside(o.b, q, o.m, to, lo)
    ensures BatchInside(b, q, m, to, lo)
  {
  }

  /** A well-formed batch whose queue and buffers lie in the block touches the block only, request after request. */
  lemma {:induction false} BatchKeepsInside(b: B.Blk, q: Queue, m: Mem, to: u16, n: nat, rs: seq<B.Request>, lo: int)
    requires 0 < q.num && n == Dist(b.lastAvail, to) && rs == R.Pending(m, q, b.hostOff, b.lastAvail, n)
    requires R.WellFormed(q, rs) && QueueInside(q, lo) && forall r :: r in rs ==> HostChain(r, lo)
    ensures BatchInside(b, q, m, to, lo)
    decreases n
  {
    if b.lastAvail != to {
      var o := FirstInside(b, q, m, n, rs, lo);
      DistNext(b.lastAvail, to);
      BatchKeepsInside(o.b, q, o.m, to, n - 1, rs[1..], lo);
      BatchInsideCons(b, q, m, to, lo, o);
    }
  }

  /** A guest may notify its block device: queue and buffers at addresses of its own block, by the virtio rules. */
  ghost predicate BlockRules(b: B.Blk, m: Mem, ipa: u64) {
    B.Ready(b) ==>
      var q, rs := B.QueueOf(b), Q.BlockWaiting(B.Outcome(b, m), B.QueueOf(b));
      && QueueInside(GuestQueue(b.queuePfn, b.pageSize, b.queueNum), ipa)
      && R.WellFormed(q, rs) && forall r :: r in rs ==> GuestChain(m, q, r.head, ipa)
  }

  /** Then everything the device touches lies in the host block. */
  lemma BlockRulesInside(b: B.Blk, m: Mem, ipa: u64, pa: u64)
    requires Blocks(ipa, pa) && b.hostOff == Wrap(pa - ipa) && BlockRules(b, m, ipa)
    ensures BlockInside(b, m, pa) && B.NotifySafe(b, m)
  {
    if B.Ready(b) {
      var q, rs := B.QueueOf(b), Q.BlockWaiting(B.Outcome(b, m), B.QueueOf(b));
      QueueTranslated(ipa, pa, GuestQueue(b.queuePfn, b.pageSize, b.queueNum), q);
      RingsInside(q, b.lastAvail, pa);
      forall r | r in rs ensures HostChain(r, pa) {
        PendingFollows(m, q, b.hostOff, b.lastAvail, |rs|, r);
        ChainTranslated(m, q, r.head, r, ipa, pa);
      }
      BatchKeepsInside(b, q, m, AvailIdx(m, q), |rs|, rs, pa);
      Q.NotifyIsKick(b, q, m);
    }
  }

  // ---- console ----

  lemma {:induction false} BufferFollows(m: Mem, q: Queue, off: u64, last: u16, n: nat, b: C.Buffer)
    requires 0 < q.num && b in C.Pending(m, q, off, last, n)
    ensures b == C.Buffer(b.head, Wrap(DescAddr(m, q, b.head) + off), DescLen(m, q, b.head))
    decreases n
  {
    if b != C.Decode(m, q, off, last) {
      BufferFollows(m, q, off, Next16(last), n - 1, b);
    }
  }

  lemma FirstBufferInside(p: C.Progress, q: Queue, off: u64, n: nat, bs: seq<C.Buffer>, lo: int) returns (p': C.Progress)
    requires 0 < n && 0 < q.num && bs == C.Pending(p.m, q, off, p.last, n)
    requires C.WellFormed(q, bs) && QueueInside(q, lo) && forall b :: b in bs ==> Inside(lo, b.addr, b.len)
    ensures BufferInside(p, q, off, lo) && p' == C.EmitOne(p, q, off)
    ensures p'.last == Next16(p.last) && bs[1..] == C.Pending(p'.m, q, off, p'.last, n - 1)
    ensures C.WellFormed(q, bs[1..]) && forall b :: b in bs[1..] ==> Inside(lo, b.addr, b.len)
  {
    assert bs[0] in bs && forall b :: b in bs[1..] ==> b in bs;
    p' := C.FirstStep(p, q, off, n, bs);
    RingsInside(q, p.last, lo);
    UsedIsInside(p.m, q, lo);
  }

  lemma DrainInsideCons(p: C.Progress, q: Queue, off: u64, to: u16, lo: int, p': C.Progress)
    requires 0 < q.num && p.last != to && BufferInside(p, q, off, lo) && p' == C.EmitOne(p, q, off)
    requires DrainInside(p', q, off, to, lo)
    ensures DrainInside(p, q, off, to, lo)
  {
  }

  lemma {:induction false} DrainKeepsInside(p: C.Progress, q: Queue, off: u64, to: u16, n: nat, bs: seq<C.Buffer>, lo: int)
    requires 0 < q.num && n == Dist(p.last, to) && bs == C.Pending(p.m, q, off, p.last, n)
    requires C.WellFormed(q, bs) && QueueInside(q, lo) && forall b :: b in bs ==> Inside(lo, b.addr, b.len)
    ensures DrainInside(p, q, off, to, lo)
    decreases n
  {
    if p.last != to {
      var p' := FirstBufferInside(p, q, off, n, bs, lo);
      DistNext(p.last, to);
      DrainKeepsInside(p', q, off, to, n - 1, bs[1..], lo);
      DrainInsideCons(p, q, off, to, lo, p');
    }
  }

  lemma BuffersTranslated(m: Mem, q: Queue, last: u16, n: nat, bs: seq<C.Buffer>, ipa: u64, pa: u64)
    requires 0 < q.num && Blocks(ipa, pa) && bs == C.Pending(m, q, Wrap(pa - ipa), last, n)
    requires forall b :: b in bs ==> Inside(ipa, DescAddr(m, q, b.head), b.len)
    ensures forall b :: b in bs ==> Inside(pa, b.addr, b.len)
  {
    forall b | b in bs ensures Inside(pa, b.addr, b.len) {
      BufferFollows(m, q, Wrap(pa - ipa), last, n, b);
      Shifted(ipa, pa, DescAddr(m, q, b.head));
    }
  }

  ghost predicate ConsoleRules(c: C.Con, m: Mem, out: seq<u8>, ipa: u64) {
    C.Ready(c) ==>
      var q, bs := C.QueueOf(c), Q.ConsoleWaiting(C.Progress(c.lastAvail, m, out), C.QueueOf(c), c.hostOff);
      && QueueInside(GuestQueue(c.queuePfn, c.pageSize, c.queueNum), ipa)
      && C.WellFormed(q, bs) && forall b :: b in bs ==> Inside(ipa, DescAddr(m, q, b.head), b.len)
  }

  lemma ConsoleRulesInside(c: C.Con, m: Mem, out: seq<u8>, ipa: u64, pa: u64)
    requires Blocks(ipa, pa) && c.hostOff == Wrap(pa - ipa) && ConsoleRules(c, m, out, ipa)
    ensures ConsoleInside(c, m, out, pa)
  {
    if C.Ready(c) {
      var p, q := C.Progress(c.lastAvail, m, out), C.QueueOf(c);
      var bs := Q.ConsoleWaiting(p, q, c.hostOff);
      QueueTranslated(ipa, pa, GuestQueue(c.queuePfn, c.pageSize, c.queueNum), q);
      RingsInside(q, c.lastAvail, pa);
      BuffersTranslated(m, q, c.lastAvail, |bs|, bs, ipa, pa);
      DrainKeepsInside(p, q, c.hostOff, AvailIdx(m, q), |bs|, bs, pa);
    }
  }

  // ---- tenants ----

  ghost predicate Compliant(p: Placement, s: System, e: Event)
    requires Inv(p, s)
  {
    && 0 <= e.vm < 2
    && match e.act
       case ConsoleKick => ConsoleRules(s.vms[e.vm].con, s.m, s.vms[e.vm].out, p.ipa)
       case BlockKick => BlockRules(s.vms[e.vm].blk, s.m, p.ipa)
       case _ => true
  }

  lemma CompliantAllowed(p: Placement, s: System, e: Event)
    requires Inv(p, s) && Compliant(p, s, e)
    ensures Allowed(p, s, e)
  {
    var vm := s.vms[e.vm];
    match e.act {
      case ConsoleKick => ConsoleRulesInside(vm.con, s.m, vm.out, p.ipa, p.pa[e.vm]);
      case BlockKick => BlockRulesInside(vm.blk, s.m, p.ipa, p.pa[e.vm]);
      case _ =>
    }
  }

  ghost predicate RunCompliant(p: Placement, s: System, es: seq<Event>): (ok: bool)
    requires Inv(p, s)
    ensures ok ==> RunAllowed(p, s, es)
    decreases es
  {
    es != [] ==>
      && Compliant(p, s, es[0])
      && (CompliantAllowed(p, s, es[0]); InvKept(p, s, es[0]); RunCompliant(p, Step(p, s, es[0]), es[1..]))
  }

  /**
   * Tenant separation. If each tenant, running its own actions alone, follows the
   * rules whenever it notifies a device, then in every interleaving each tenant ends
   * up with the RAM, device state, disk and output it had alone.
   */
  lemma TenantsSeparate(p: Placement, s: System, es: seq<Event>, v: int)
    requires Inv(p, s) && RunCompliant(p, s, Own(es, 0)) && RunCompliant(p, s, Own(es, 1))
    requires 0 <= v < 2 && forall e :: e in es ==> 0 <= e.vm < 2
    ensures RunAllowed(p, s, es)
    ensures SameView(p, Run(p, s, es), Run(p, s, Own(es, v)), v) && Inv(p, Run(p, s, es))
  {
    AloneSuffices(p, s, s, s, es);
    RunsAlone(p, s, s, es, v);
    RunKeepsTables(p, s, es);
  }

  /**
   * What a notification by the rules does for the tenant: the console prints the buffers
   * the ring's bytes name, in order; the block device performs the requests they hold.
   */
  lemma KickPrints(p: Placement, s: System, v: int, c: C.Con, q: Queue, bs: seq<C.Buffer>)
    requires Inv(p, s) && 0 <= v < 2 && Compliant(p, s, Event(v, ConsoleKick)) && c == s.vms[v].con && C.Ready(c)
    requires q == C.QueueOf(c) && bs == Q.ConsoleWaiting(C.Progress(c.lastAvail, s.m, s.vms[v].out), q, c.hostOff)
    ensures Defined(s, Event(v, ConsoleKick))
    ensures Step(p, s, Event(v, ConsoleKick)).vms[v].out == s.vms[v].out + C.Payloads(s.m, bs)
  {
    var pr := C.Progress(c.lastAvail, s.m, s.vms[v].out);
    C.DrainRefines(pr, q, c.hostOff, AvailIdx(s.m, q), |bs|, bs);
  }

  lemma KickPerforms(p: Placement, s: System, v: int, b: B.Blk, q: Queue, rs: seq<B.Request>)
    requires Inv(p, s) && 0 <= v < 2 && Compliant(p, s, Event(v, BlockKick)) && b == s.vms[v].blk && B.Ready(b)
    requires q == B.QueueOf(b) && rs == Q.BlockWaiting(B.Outcome(b, s.m), q)
    ensures Defined(s, Event(v, BlockKick))
    ensures Step(p, s, Event(v, BlockKick)).vms[v].blk.disk == R.PerformAll(R.Abs(b.disk, s.m), rs).disk
  {
    var to := AvailIdx(s.m, q);
    R.BatchRefines(b, q, s.m, to, Dist(b.lastAvail, to), rs);
  }

  // ---- without the rules ----

  /** Serving the next request leaves byte x alone, if x holds v and the disk is d. */
  predicate Spared(b: B.Blk, q: Queue, m: Mem, x: u64, v: u8, d: B.Disk)
    requires 0 < q.num
  {
    var b', m' := b.(disk := d), m[x := v];
    !B.Stray(B.Decode(m', q, b.hostOff, b.lastAvail)) && B.ServeOne(b', q, m').m[x] == v
  }

  lemma ServedByte(b: B.Blk, q: Queue, m: Mem, r: B.Request, x: u64, v: u8, d: B.Disk)
    requires q.LaidOut() && r == B.Decode(m, q, b.hostOff, b.lastAvail) && R.GoodChain(q, r)
    requires !q.InUsed(x) && !q.InRings(x) && !R.InHeader(r, x)
    ensures Spared(b, q, m, x, v, d) <==> R.MemByte(R.Abs(d, m[x := v]), r, x) == v
  {
    var b', m' := b.(disk := d), m[x := v];
    R.DecodeStable(m, m', q, b.hostOff, b.lastAvail);
    B.RangeCheckExact(r);
    R.ServeOneEffect(b', q, m', r);
  }

  /**
   * The exact condition for one request: a byte outside the queue and the header is
   * safe from the device, whatever it and the disk hold, if and only if it is neither
   * the status byte nor, for a read that fits, in the data buffer. So the stores of a
   * request stay in a block exactly when those addresses do.
   */
  lemma SparedExact(b: B.Blk, q: Queue, m: Mem, r: B.Request, x: u64)
    requires q.LaidOut() && r == B.Decode(m, q, b.hostOff, b.lastAvail) && R.GoodChain(q, r)
    requires !q.InUsed(x) && !q.InRings(x) && !R.InHeader(r, x)
    ensures (forall v: u8, d: B.Disk :: Spared(b, q, m, x, v, d)) <==> !R.Stores(r, x)
  {
    if R.Stores(r, x) {
      var d: B.Disk := seq(B.DISK_SIZE, i => 0);
      ServedByte(b, q, m, r, x, 2, d);
      assert !Spared(b, q, m, x, 2, d);
    } else {
      forall v: u8, d: B.Disk ensures Spared(b, q, m, x, v, d) {
        ServedByte(b, q, m, r, x, v, d);
      }
    }
  }

  /** Some memory that differs from m in the n bytes at a only, where it holds v. */
  lemma Poked(m: Mem, a: int, n: nat, v: nat) returns (m': Mem)
    requires Region(a, n) && v < Pow256(n)
    ensures Load(m', a, n) == v && SameBut(m, m', a, n)
  {
    StoreEffect(m, a, n, v);
    m' := HostMemory.Store(m, a, n, v);
  }

  /** A descriptor at a, with no length. */
  predicate EmptyDesc(m: Mem, a: int, addr: u64, next: u16) {
    Rd64(m, a) == addr && Rd32(m, a + 8) == 0 && Rd16(m, a + 14) == next
  }

  lemma DescPoked(m: Mem, a: int, addr: u64, next: u16) returns (m': Mem)
    requires Region(a, 16)
    ensures EmptyDesc(m', a, addr, next) && SameBut(m, m', a, 16)
  {
    var m1 := Poked(m, a, 8, addr);
    var m2 := Poked(m1, a + 8, 4, 0);
    m' := Poked(m2, a + 14, 2, next);
    LoadSame(m1, m', a, 8);
    LoadSame(m2, m', a + 8, 4);
  }

  lemma DescSame(m: Mem, m': Mem, a: int, addr: u64, next: u16)
    requires Region(a, 16) && EmptyDesc(m, a, addr, next) && Same(m, m', a, 16)
    ensures EmptyDesc(m', a, addr, next)
  {
    LoadSame(m, m', a, 8);
    LoadSame(m, m', a + 8, 4);
    LoadSame(m, m', a + 14, 2);
  }

  /** An available ring of two entries at a: the index, and descriptor 0 in both entries. */
  predicate Ring(m: Mem, a: int, idx: u16) { Rd16(m, a + 2) == idx && Rd16(m, a + 4) == 0 && Rd16(m, a + 6) == 0 }

  lemma RingPoked(m: Mem, a: int, idx: u16) returns (m': Mem)
    requires Region(a, 8)
    ensures Ring(m', a, idx) && SameBut(m, m', a, 8)
  {
    var m1 := Poked(m, a + 2, 2, idx);
    var m2 := Poked(m1, a + 4, 2, 0);
    m' := Poked(m2, a + 6, 2, 0);
    LoadSame(m1, m', a + 2, 2);
    LoadSame(m2, m', a + 4, 2);
  }

  lemma RingSame(m: Mem, m': Mem, a: int, idx: u16)
    requires Region(a, 8) && Ring(m, a, idx) && Same(m, m', a, 8)
    ensures Ring(m', a, idx)
  {
    LoadSame(m, m', a + 2, 2);
    LoadSame(m, m', a + 4, 2);
    LoadSame(m, m', a + 6, 2);
  }

  /** The header of a read request at a. */
  predicate Header(m: Mem, a: int, sector: u64) { Rd32(m, a) == 0 && Rd64(m, a + 8) == sector }

  lemma HeaderPoked(m: Mem, a: int, sector: u64) returns (m': Mem)
    requires Region(a, 16)
    ensures Header(m', a, sector) && SameBut(m, m', a, 16)
  {
    var m1 := Poked(m, a, 4, 0);
    m' := Poked(m1, a + 8, 8, sector);
    LoadSame(m1, m', a, 4);
  }

  /**
   * A block's second page as a two-entry queue: descriptor 0 for the header at guest
   * address h, descriptor 1 for data (of length 0) and status at guest address a; and
   * the header in its fourth page.
   */
  predicate Request(m: Mem, pa: int, h: u64, a: u64, idx: u16, sector: u64) {
    && EmptyDesc(m, pa + 0x1000, h, 1) && EmptyDesc(m, pa + 0x1010, a, 1)
    && Ring(m, pa + 0x1020, idx) && Header(m, pa + 0x3000, sector)
  }

  lemma RequestPoked(m: Mem, pa: int, h: u64, a: u64, idx: u16, sector: u64) returns (m': Mem)
    requires BlockPlace(pa)
    ensures Request(m', pa, h, a, idx, sector) && Confined(m, m', pa)
  {
    var m1 := DescPoked(m, pa + 0x1000, h, 1);
    var m2 := DescPoked(m1, pa + 0x1010, a, 1);
    var m3 := RingPoked(m2, pa + 0x1020, idx);
    m' := HeaderPoked(m3, pa + 0x3000, sector);
    DescSame(m1, m', pa + 0x1000, h, 1);
    DescSame(m2, m', pa + 0x1010, a, 1);
    RingSame(m3, m', pa + 0x1020, idx);
  }

  /** One request waits: header at host address hh, data (none) and status at guest address a. */
  predicate OneWaits(m: Mem, q: Queue, off: u64, last: u16, hh: u64, a: u64, sector: u64) {
    && q.LaidOut() && AvailIdx(m, q) == Next16(last) && HeadAt(m, q, last) == 0
    && Wrap(DescAddr(m, q, 0) + off) == hh && DescNext(m, q, 0) == 1
    && DescAddr(m, q, 1) == a && DescLen(m, q, 1) == 0 && DescNext(m, q, 1) == 1
    && Rd32(m, hh) == 0 && Rd64(m, hh + 8) == sector
  }

  lemma ImageQueue(pa: u64, q: Queue)
    requires pa < PA_LIMIT && pa % GIB == 0 && q == Queue(pa + 0x1000, 2)
    ensures q.LaidOut() && q.Avail() == pa + 0x1020 && q.Used() == pa + 0x2000
  {
    var pages := 0x4_0000 * (pa / GIB);
    assert pa == 4096 * pages;
    DivModUnique(pa + 0x2029, 4096, pages + 2, 0x29);
  }

  lemma RequestWaits(m: Mem, ipa: u64, pa: u64, off: u64, a: u64, last: u16, sector: u64, q: Queue)
    requires Blocks(ipa, pa) && off == Wrap(pa - ipa) && q == Queue(pa + 0x1000, 2)
    requires Request(m, pa, ipa + 0x3000, a, Next16(last), sector)
    ensures OneWaits(m, q, off, last, pa + 0x3000, a, sector)
  {
    ImageQueue(pa, q);
    Shifted(ipa, pa, ipa + 0x3000);
  }

  /** The request as the device decodes it. */
  lemma OneDecoded(b: B.Blk, q: Queue, m: Mem, hh: u64, a: u64, sector: u64, r: B.Request)
    requires OneWaits(m, q, b.hostOff, b.lastAvail, hh, a, sector) && r == B.Decode(m, q, b.hostOff, b.lastAvail)
    ensures r.kind == 0 && r.sector == sector && r.dlen == 0 && r.saddr == Wrap(a + b.hostOff)
  {
    B.FollowIsChain(m, q, b.hostOff, 0, r);
  }

  /** The sector that makes the status differ from the byte already there: 17 is past the end of the disk. */
  function OddSector(byte: u8): u64 { if byte == 0 then 17 else 0 }

  /** The device stores a status at the translated address, wherever that is. */
  lemma OneServed(b: B.Blk, q: Queue, m: Mem, hh: u64, a: u64, x: u64)
    requires OneWaits(m, q, b.hostOff, b.lastAvail, hh, a, OddSector(m[x]))
    requires x == Wrap(a + b.hostOff) && !q.InUsed(x)
    ensures B.BatchSafe(b, q, m, AvailIdx(m, q)) && B.Batch(b, q, m, AvailIdx(m, q)).m[x] != m[x]
  {
    var r := B.Decode(m, q, b.hostOff, b.lastAvail);
    OneDecoded(b, q, m, hh, a, OddSector(m[x]), r);
    var m1 := B.Transfer(b.disk, m, r).1;
    assert m1[x] != m[x];
    PublishEffect(m1, q, r.head, r.dlen);
    OneServedEnds(b, q, m, r);
  }

  lemma OneServedEnds(b: B.Blk, q: Queue, m: Mem, r: B.Request)
    requires 0 < q.num && AvailIdx(m, q) == Next16(b.lastAvail)
    requires r == B.Decode(m, q, b.hostOff, b.lastAvail) && !B.Stray(r)
    ensures B.BatchSafe(b, q, m, AvailIdx(m, q)) && B.Batch(b, q, m, AvailIdx(m, q)) == B.ServeOne(b, q, m)
  {
    var o := B.ServeOne(b, q, m);
    assert o.b.lastAvail == AvailIdx(m, q);
    assert B.BatchSafe(o.b, q, o.m, AvailIdx(m, q)) && B.Batch(o.b, q, o.m, AvailIdx(m, q)) == o;
  }

  /** The block device with its queue in the second page of the guest block. */
  function WithQueue(b: B.Blk, ipa: u64): B.Blk
    requires ipa < IPA_LIMIT
  {
    b.(pageSize := 4096, queueNum := 2, queuePfn := ipa / 4096 + 1)
  }

  /**
   * s can be changed, in VM v's own block and registers only, so that one request waits:
   * a status for host address x, other than the byte there.
   */
  lemma Primed(p: Placement, s: System, v: int, x: u64, q: Queue) returns (s': System, b: B.Blk)
    requires Inv(p, s) && 0 <= v < 2 && !(p.pa[v] <= x < p.pa[v] + GIB) && q == Queue(p.pa[v] + 0x1000, 2)
    ensures Inv(p, s') && Confined(s.m, s'.m, p.pa[v]) && b == WithQueue(s.vms[v].blk, p.ipa)
    ensures s'.vms == s.vms[v := s.vms[v].(blk := b)] && s'.vms[v].blk == b
    ensures Waiting(b, q, s'.m, p.pa[v] + 0x3000, Wrap(x - p.Offset(v)), x)
  {
    b := WithQueue(s.vms[v].blk, p.ipa);
    var m := PrimedRam(p.ipa, p.pa[v], p.Offset(v), b, q, s.m, x);
    s' := System(m, s.vms[v := s.vms[v].(blk := b)]);
    ConfinedKeepsTables(p, s, s', v);
  }

  lemma PrimedRam(ipa: u64, pa: u64, off: u64, b: B.Blk, q: Queue, m: Mem, x: u64) returns (m': Mem)
    requires Blocks(ipa, pa) && off == Wrap(pa - ipa) && b.hostOff == off
    requires b.pageSize == 4096 && b.queuePfn == ipa / 4096 + 1 && b.queueNum == 2
    requires q == Queue(pa + 0x1000, 2) && !(pa <= x < pa + GIB)
    ensures Confined(m, m', pa) && Waiting(b, q, m', pa + 0x3000, Wrap(x - off), x)
  {
    var a, sector := Wrap(x - off), OddSector(m[x]);
    m' := RequestPoked(m, pa, ipa + 0x3000, a, Next16(b.lastAvail), sector);
    assert m'[x] == m[x];
    PrimedWaits(ipa, pa, off, b, q, m', a, x, sector);
  }

  lemma PrimedWaits(ipa: u64, pa: u64, off: u64, b: B.Blk, q: Queue, m: Mem, a: u64, x: u64, sector: u64)
    requires Blocks(ipa, pa) && off == Wrap(pa - ipa) && b.hostOff == off
    requires b.pageSize == 4096 && b.queuePfn == ipa / 4096 + 1 && b.queueNum == 2
    requires q == Queue(pa + 0x1000, 2) && !(pa <= x < pa + GIB) && a == Wrap(x - off) && sector == OddSector(m[x])
    requires Request(m, pa, ipa + 0x3000, a, Next16(b.lastAvail), sector)
    ensures Waiting(b, q, m, pa + 0x3000, a, x)
  {
    PrimedQueue(ipa, pa, b, q);
    RequestWaits(m, ipa, pa, off, a, b.lastAvail, sector, q);
    OutsideUsed(pa, q, x);
    WrapBack(x, off);
    Assembled(b, q, m, pa + 0x3000, a, x, off, sector);
  }

  lemma Assembled(b: B.Blk, q: Queue, m: Mem, hh: u64, a: u64, x: u64, off: u64, sector: u64)
    requires B.Ready(b) && q == B.QueueOf(b) && b.hostOff == off && OneWaits(m, q, off, b.lastAvail, hh, a, sector)
    requires sector == OddSector(m[x]) && x == Wrap(a + off) && !q.InUsed(x)
    ensures Waiting(b, q, m, hh, a, x)
  {
  }

  lemma OutsideUsed(pa: u64, q: Queue, x: u64)
    requires pa < PA_LIMIT && pa % GIB == 0 && q == Queue(pa + 0x1000, 2) && !(pa <= x < pa + GIB)
    ensures !q.InUsed(x)
  {
    ImageQueue(pa, q);
  }

  /** Device b with queue q has one request waiting, with its header at hh and the status for host address x. */
  predicate Waiting(b: B.Blk, q: Queue, m: Mem, hh: u64, a: u64, x: u64) {
    && B.Ready(b) && q == B.QueueOf(b) && OneWaits(m, q, b.hostOff, b.lastAvail, hh, a, OddSector(m[x]))
    && x == Wrap(a + b.hostOff) && !q.InUsed(x)
  }

  lemma PrimedQueue(ipa: u64, pa: u64, b: B.Blk, q: Queue)
    requires Blocks(ipa, pa) && b.hostOff == Wrap(pa - ipa)
    requires b.pageSize == 4096 && b.queuePfn == ipa / 4096 + 1 && b.queueNum == 2 && q == Queue(pa + 0x1000, 2)
    ensures B.Ready(b) && B.QueueOf(b) == q
  {
    SecondPage(ipa, b.queuePfn, b.pageSize);
    Shifted(ipa, pa, ipa + 0x1000);
  }

  lemma SecondPage(ipa: u64, pfn: u32, pageSize: u32)
    requires ipa % GIB == 0 && pfn == ipa / 4096 + 1 && pageSize == 4096
    ensures pfn * pageSize == ipa + 0x1000
  {
    assert ipa == 4096 * (ipa / 4096) by {
      assert ipa == 4096 * (0x4_0000 * (ipa / GIB));
    }
  }

  /**
   * The separation theorems do need their hypothesis. In every state of two tenants, and
   * for every host byte x outside VM v's block, there are contents of v's own RAM and of
   * its device registers with which a notification by v changes x.
   */
  lemma AddressUnchecked(p: Placement, s: System, v: int, x: u64) returns (s': System)
    requires Inv(p, s) && 0 <= v < 2 && !(p.pa[v] <= x < p.pa[v] + GIB)
    ensures Inv(p, s') && Confined(s.m, s'.m, p.pa[v])
    ensures s'.vms == s.vms[v := s.vms[v].(blk := WithQueue(s.vms[v].blk, p.ipa))]
    ensures Defined(s', Event(v, BlockKick)) && Step(p, s', Event(v, BlockKick)).m[x] != s.m[x]
  {
    var q := Queue(p.pa[v] + 0x1000, 2);
    var b;
    s', b := Primed(p, s, v, x, q);
    OneNotified(b, q, s'.m, p.pa[v] + 0x3000, Wrap(x - p.Offset(v)), x);
    KickIsNotify(p, s', v, b, s'.m);
  }

  lemma WrapBack(x: u64, off: u64)
    ensures Wrap(Wrap(x - off) + off) == x
  {
  }

  lemma OneNotified(b: B.Blk, q: Queue, m: Mem, hh: u64, a: u64, x: u64)
    requires Waiting(b, q, m, hh, a, x)
    ensures B.NotifySafe(b, m) && B.Notify(b, m).m[x] != m[x]
  {
    OneServed(b, q, m, hh, a, x);
  }

  lemma KickIsNotify(p: Placement, s: System, v: int, b: B.Blk, m: Mem)
    requires p.Valid() && |s.vms| == 2 && 0 <= v < 2 && b == s.vms[v].blk && m == s.m && B.NotifySafe(b, m)
    ensures Defined(s, Event(v, BlockKick)) && Step(p, s, Event(v, BlockKick)).m == B.Notify(b, m).m
  {
  }

  lemma ConfinedKeepsTables(p: Placement, s: System, s': System, v: int)
    requires Inv(p, s) && 0 <= v < 2 && Confined(s.m, s'.m, p.pa[v])
    requires s'.vms == s.vms[v := s.vms[v].(blk := WithQueue(s.vms[v].blk, p.ipa))]
    ensures Inv(p, s')
  {
    forall w | 0 <= w < 2 ensures TableAt(s'.m, p.tb[w]) == TableAt(s.m, p.tb[w]) {
      assert Apart(p.tb[w], p.pa[v]);
      TableSame(s.m, s'.m, p.tb[w]);
    }
  }

  /** In particular, in every state there is such a notification after which a stage-2 table is no longer the one built. */
  lemma TableUnchecked(p: Placement, s: System, v: int, w: int) returns (s': System)
    requires Inv(p, s) && 0 <= v < 2 && 0 <= w < 2
    ensures Inv(p, s') && Confined(s.m, s'.m, p.pa[v]) && Defined(s', Event(v, BlockKick))
    ensures !Inv(p, Step(p, s', Event(v, BlockKick)))
  {
    var x := p.tb[w] + 8 * Index(p.ipa);
    assert Apart(p.tb[w], p.pa[v]);
    TableByte(s.m, p.tb[w], p.ipa, p.pa[w]);
    s' := AddressUnchecked(p, s, v, x);
    if Inv(p, Step(p, s', Event(v, BlockKick))) {
      TableByte(Step(p, s', Event(v, BlockKick)).m, p.tb[w], p.ipa, p.pa[w]);
      assert false;
    }
  }

  /** The low byte of a VM's one valid descriptor. */
  lemma TableByte(m: Mem, tb: u64, ipa: u64, pa: u64)
    requires TablePlace(tb) && pa % GIB == 0 && TableAt(m, tb) == VmTable(ipa, pa)
    ensures m[tb + 8 * Index(ipa)] == 0xFD
  {
    var i := Index(ipa);
    assert Entry(m, tb, i) == TableAt(m, tb)[i] == BlockEntry(pa, NORMAL);
    assert Entry(m, tb, i) == m[tb + 8 * i] + 0x100 * Load(m, tb + 8 * i + 1, 7);
    LowByte(pa, Load(m, tb + 8 * i + 1, 7), m[tb + 8 * i]);
  }

  lemma LowByte(pa: int, high: int, low: u8)
    requires pa % GIB == 0 && pa + NORMAL == low + 0x100 * high
    ensures low == 0xFD
  {
    assert pa == 0x100 * (0x40_0000 * (pa / GIB));
    assert low - 0xFD == 0x100 * (0x40_0000 * (pa / GIB) + 7 - high);
  }
}
