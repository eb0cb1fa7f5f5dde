/**
 * A whole batch of block requests against a sequential disk. The reference
 * machine knows neither rings nor descriptors: it is given the requests decoded
 * up front and defines each byte of the disk and of memory after a request.
 */
module BlockRefinement {
  import opened Words
  import opened HostMemory
  import opened Virtqueue
  import opened BlockSpec

  datatype Abs = Abs(disk: Disk, mem: Mem)

  predicate InData(r: Request, x: int) { r.daddr <= x < r.daddr + r.dlen }

  predicate InHeader(r: Request, x: int) { r.haddr <= x < r.haddr + 16 }

  predicate IsWrite(r: Request) { r.kind == 1 }

  /** The disk byte at k once r is done. */
  function DiskByte(s: Abs, r: Request, k: int): u8
    requires Region(r.daddr, r.dlen) && 0 <= k < DISK_SIZE
  {
    var start := r.sector * SECTOR_SIZE;
    if Fits(r) && IsWrite(r) && start <= k < start + r.dlen then s.mem[r.daddr + k - start] else s.disk[k]
  }

  /** The memory byte at x once r is done. */
  function MemByte(s: Abs, r: Request, x: int): u8
    requires 0 <= x < TWO64
  {
    if x == r.saddr then (if Fits(r) then 0 else 1)
    else if Fits(r) && !IsWrite(r) && InData(r, x) then s.disk[r.sector * SECTOR_SIZE + x - r.daddr]
    else s.mem[x]
  }

  function Perform(s: Abs, r: Request): Abs
    requires Region(r.daddr, r.dlen)
  {
    Abs(seq(DISK_SIZE, k requires 0 <= k < DISK_SIZE => DiskByte(s, r, k)),
        seq(TWO64, x requires 0 <= x < TWO64 => MemByte(s, r, x)))
  }

  /** The requests one by one, in order. */
  function PerformAll(s: Abs, rs: seq<Request>): Abs
    requires forall r :: r in rs ==> Region(r.daddr, r.dlen)
    decreases rs
  {
    if rs == [] then s else PerformAll(Perform(s, rs[0]), rs[1..])
  }

  /** The n chains waiting from available counter `last` on, decoded from one memory. */
  function Pending(m: Mem, q: Queue, off: u64, last: u16, n: nat): (rs: seq<Request>)
    requires 0 < q.num
    ensures |rs| == n
    decreases n
  {
    if n == 0 then [] else [Decode(m, q, off, last)] + Pending(m, q, off, Next16(last), n - 1)
  }

  function Completions(rs: seq<Request>): (cs: seq<Completion>)
    ensures |cs| == |rs|
  {
    if rs == [] then [] else [Completion(rs[0].head, rs[0].dlen)] + Completions(rs[1..])
  }

  /** x is a byte the device stores while serving r, apart from the used ring. */
  predicate Stores(r: Request, x: int) { x == r.saddr || (!IsWrite(r) && Fits(r) && InData(r, x)) }

  /** What a single chain must satisfy. */
  predicate GoodChain(q: Queue, r: Request) {
    && r.head < q.num && r.hnext < q.num && r.dnext < q.num
    && Region(r.haddr, 16) && Region(r.daddr, r.dlen)
    && r.sector * SECTOR_SIZE + r.dlen < TWO64
  }

  ghost predicate ClearOfUsed(q: Queue, r: Request) {
    forall x :: InHeader(r, x) || InData(r, x) || x == r.saddr ==> !q.InUsed(x)
  }

  /** r's stores hit neither the rings nor the header of r'. */
  ghost predicate StoresMiss(q: Queue, r: Request, r': Request) {
    forall x :: Stores(r, x) ==> !q.InRings(x) && !InHeader(r', x)
  }

  /** A guest that follows the virtio rules: chains in the table, buffers apart from the queue. */
  ghost predicate WellFormed(q: Queue, rs: seq<Request>) {
    && q.LaidOut() && RingSize(q.num) && |rs| <= q.num
    && (forall r :: r in rs ==> GoodChain(q, r) && ClearOfUsed(q, r))
    && (forall r, r' :: r in rs && r' in rs ==> StoresMiss(q, r, r'))
  }

  // ---- one request ----

  /** A read request: memory gets the sectors, then the status byte. */
  lemma ReadIsPerform(d: Disk, m: Mem, r: Request)
    requires Region(r.daddr, r.dlen) && Fits(r) && !IsWrite(r)
    ensures var start := r.sector * SECTOR_SIZE;
            Perform(Abs(d, m), r) == Abs(d, Put(Fill(m, r.daddr, d[start..start + r.dlen]), r.saddr, 0))
  {
    var bs := d[r.sector * SECTOR_SIZE..r.sector * SECTOR_SIZE + r.dlen];
    FillAt(m, r.daddr, bs);
    var f, p := Fill(m, r.daddr, bs), Perform(Abs(d, m), r);
    forall x | 0 <= x < TWO64 ensures Put(f, r.saddr, 0)[x] == p.mem[x] {
      if InData(r, x) {
        assert f[x] == f[r.daddr..r.daddr + r.dlen][x - r.daddr];
      }
    }
    assert p.disk == d;
    assert p.mem == Put(f, r.saddr, 0);
  }

  /** A write request: the sectors get the buffer, memory only the status byte. */
  lemma WriteIsPerform(d: Disk, m: Mem, r: Request)
    requires Region(r.daddr, r.dlen) && Fits(r) && IsWrite(r)
    ensures Perform(Abs(d, m), r) ==
            Abs(Splice(d, r.sector * SECTOR_SIZE, Bytes(m, r.daddr, r.dlen)), Put(m, r.saddr, 0))
  {
    var p := Perform(Abs(d, m), r);
    assert p.disk == Splice(d, r.sector * SECTOR_SIZE, Bytes(m, r.daddr, r.dlen));
    assert p.mem == Put(m, r.saddr, 0);
  }

  /** The code's data phase is the reference machine's step. */
  lemma TransferIsPerform(d: Disk, m: Mem, r: Request)
    requires Region(r.daddr, r.dlen) && r.sector * SECTOR_SIZE + r.dlen < TWO64 && !Stray(r)
    ensures Perform(Abs(d, m), r) == Abs(Transfer(d, m, r).0, Transfer(d, m, r).1)
  {
    RangeCheckExact(r);
    if !Fits(r) {
      var p := Perform(Abs(d, m), r);
      assert p.disk == d && p.mem == Put(m, r.saddr, 1);
    } else if IsWrite(r) {
      WriteIsPerform(d, m, r);
    } else {
      ReadIsPerform(d, m, r);
    }
  }

  lemma PerformStores(s: Abs, r: Request)
    requires Region(r.daddr, r.dlen)
    ensures forall x :: 0 <= x < TWO64 && !Stores(r, x) ==> Perform(s, r).mem[x] == s.mem[x]
  {
  }

  /** Decoding reads only the rings and the request's own header. */
  lemma DecodeStable(m: Mem, m': Mem, q: Queue, off: u64, last: u16)
    requires q.LaidOut() && (forall x :: 0 <= x < TWO64 && q.InRings(x) ==> m'[x] == m[x])
    requires GoodChain(q, Decode(m, q, off, last))
    requires forall x :: 0 <= x < TWO64 && InHeader(Decode(m, q, off, last), x) ==> m'[x] == m[x]
    ensures Decode(m', q, off, last) == Decode(m, q, off, last)
  {
    HeadStable(m, m', q, last);
    FollowStable(m, m', q, off, HeadAt(m, q, last), Decode(m, q, off, last));
  }

  lemma FollowStable(m: Mem, m': Mem, q: Queue, off: u64, head: u16, r: Request)
    requires q.LaidOut() && (forall x :: 0 <= x < TWO64 && q.InRings(x) ==> m'[x] == m[x])
    requires r == Follow(m, q, off, head) && GoodChain(q, r)
    requires forall x :: 0 <= x < TWO64 && InHeader(r, x) ==> m'[x] == m[x]
    ensures Follow(m', q, off, head) == r
  {
    var r' := Follow(m', q, off, head);
    FollowIsChain(m, q, off, head, r);
    FollowIsChain(m', q, off, head, r');
    HeaderStable(m, m', q, off, head, r, r');
  }

  lemma HeaderStable(m: Mem, m': Mem, q: Queue, off: u64, head: u16, r: Request, r': Request)
    requires q.LaidOut() && (forall x :: 0 <= x < TWO64 && q.InRings(x) ==> m'[x] == m[x])
    requires Follows(m, q, off, head, r) && GoodChain(q, r) && Follows(m', q, off, head, r')
    requires r.kind == Rd32(m, r.haddr) && r.sector == Rd64(m, r.haddr + 8)
    requires r'.kind == Rd32(m', r'.haddr) && r'.sector == Rd64(m', r'.haddr + 8)
    requires forall x :: 0 <= x < TWO64 && InHeader(r, x) ==> m'[x] == m[x]
    ensures r' == r
  {
    ChainStable(m, m', q, off, head, r, r');
    HeaderWordsStable(m, m', r, r');
    SameChain(r, r');
  }

  lemma HeaderWordsStable(m: Mem, m': Mem, r: Request, r': Request)
    requires Region(r.haddr, 16) && r'.haddr == r.haddr && (forall x :: 0 <= x < TWO64 && InHeader(r, x) ==> m'[x] == m[x])
    requires r.kind == Rd32(m, r.haddr) && r.sector == Rd64(m, r.haddr + 8)
    requires r'.kind == Rd32(m', r'.haddr) && r'.sector == Rd64(m', r'.haddr + 8)
    ensures r'.kind == r.kind && r'.sector == r.sector
  {
    LoadSame(m, m', r.haddr, 4);
    LoadSame(m, m', r.haddr + 8, 8);
  }

  lemma ChainStable(m: Mem, m': Mem, q: Queue, off: u64, head: u16, r: Request, r': Request)
    requires q.LaidOut() && (forall x :: 0 <= x < TWO64 && q.InRings(x) ==> m'[x] == m[x])
    requires Follows(m, q, off, head, r) && GoodChain(q, r) && Follows(m', q, off, head, r')
    ensures r'.head == r.head && r'.haddr == r.haddr && r'.hnext == r.hnext && r'.daddr == r.daddr
    ensures r'.dlen == r.dlen && r'.dnext == r.dnext && r'.saddr == r.saddr
  {
    DescStable(m, m', q, head);
    DescStable(m, m', q, r.hnext);
    DescStable(m, m', q, r.dnext);
  }

  lemma {:induction false} PendingStable(m: Mem, m': Mem, q: Queue, off: u64, last: u16, n: nat)
    requires q.LaidOut() && (forall x :: 0 <= x < TWO64 && q.InRings(x) ==> m'[x] == m[x])
    requires forall r :: r in Pending(m, q, off, last, n) ==> GoodChain(q, r)
    requires forall r, x :: r in Pending(m, q, off, last, n) && 0 <= x < TWO64 && InHeader(r, x) ==> m'[x] == m[x]
    ensures Pending(m', q, off, last, n) == Pending(m, q, off, last, n)
    decreases n
  {
    if n > 0 {
      var rs := Pending(m, q, off, last, n);
      assert rs[0] in rs;
      DecodeStable(m, m', q, off, last);
      assert forall r :: r in Pending(m, q, off, Next16(last), n - 1) ==> r in rs;
      PendingStable(m, m', q, off, Next16(last), n - 1);
    }
  }

  /** One iteration on m, which decodes to r, does what the reference machine does and publishes r. */
  ghost predicate Served(b: Blk, q: Queue, m: Mem, r: Request, o: Outcome)
    requires q.LaidOut() && Region(r.daddr, r.dlen)
  {
    var p := Perform(Abs(b.disk, m), r);
    && o.b == Advanced(b, true, p.disk, Next16(b.lastAvail))
    && Published(p.mem, o.m, q, UsedIdx(p.mem, q), UsedIdx(p.mem, q) % q.num, Completion(r.head, r.dlen))
  }

  lemma ServeOneEffect(b: Blk, q: Queue, m: Mem, r: Request)
    requires q.LaidOut() && r == Decode(m, q, b.hostOff, b.lastAvail) && GoodChain(q, r) && !Stray(r)
    ensures Served(b, q, m, r, ServeOne(b, q, m))
  {
    TransferIsPerform(b.disk, m, r);
    PublishEffect(Perform(Abs(b.disk, m), r).mem, q, r.head, r.dlen);
  }

  /** The iteration changes no byte outside the used ring and r's own stores. */
  lemma ServedBytes(b: Blk, q: Queue, m: Mem, r: Request, o: Outcome)
    requires q.LaidOut() && GoodChain(q, r) && ClearOfUsed(q, r) && Served(b, q, m, r, o)
    ensures var p := Perform(Abs(b.disk, m), r);
            SameOutsideUsed(o.m, p.mem, q) && Same(m, p.mem, q.Used(), 4 + 8 * q.num)
    ensures forall x :: 0 <= x < TWO64 && !q.InUsed(x) && !Stores(r, x) ==> o.m[x] == m[x]
  {
    var p := Perform(Abs(b.disk, m), r);
    PerformStores(Abs(b.disk, m), r);
    forall x | q.Used() <= x < q.Used() + 4 + 8 * q.num ensures m[x] == p.mem[x] {
      assert q.InUsed(x) && !Stores(r, x);
    }
  }

  /** After the first request the rest of the batch still waits, unchanged. */
  lemma RestWaits(m: Mem, m': Mem, q: Queue, off: u64, last: u16, n: nat, rs: seq<Request>)
    requires 0 < n && 0 < q.num && rs == Pending(m, q, off, last, n) && WellFormed(q, rs)
    requires forall x :: 0 <= x < TWO64 && !q.InUsed(x) && !Stores(rs[0], x) ==> m'[x] == m[x]
    ensures Pending(m', q, off, Next16(last), n - 1) == rs[1..] && WellFormed(q, rs[1..])
  {
    var r, rest := rs[0], rs[1..];
    RestFormed(q, rs, r, rest);
    PendingRest(m, q, off, last, n, rs);
    RingsKept(m, m', q, r);
    forall r', x | r' in rest && 0 <= x < TWO64 && InHeader(r', x) ensures m'[x] == m[x] {
      HeaderKept(m, m', q, r, r', x);
    }
    PendingStable(m, m', q, off, Next16(last), n - 1);
  }

  lemma PendingRest(m: Mem, q: Queue, off: u64, last: u16, n: nat, rs: seq<Request>)
    requires 0 < n && 0 < q.num && rs == Pending(m, q, off, last, n)
    ensures Pending(m, q, off, Next16(last), n - 1) == rs[1..]
  {
  }

  lemma RestFormed(q: Queue, rs: seq<Request>, r: Request, rest: seq<Request>)
    requires WellFormed(q, rs) && rs != [] && r == rs[0] && rest == rs[1..]
    ensures WellFormed(q, rest) && StoresMiss(q, r, r)
    ensures forall r' :: r' in rest ==> GoodChain(q, r') && ClearOfUsed(q, r') && StoresMiss(q, r, r')
  {
    assert r in rs && forall r' :: r' in rest ==> r' in rs;
  }

  lemma RingsKept(m: Mem, m': Mem, q: Queue, r: Request)
    requires q.LaidOut() && StoresMiss(q, r, r)
    requires forall x :: 0 <= x < TWO64 && !q.InUsed(x) && !Stores(r, x) ==> m'[x] == m[x]
    ensures forall x :: 0 <= x < TWO64 && q.InRings(x) ==> m'[x] == m[x]
  {
    forall x | 0 <= x < TWO64 && q.InRings(x) ensures m'[x] == m[x] {
      q.LayoutDisjoint(x);
    }
  }

  lemma HeaderKept(m: Mem, m': Mem, q: Queue, r: Request, r': Request, x: int)
    requires ClearOfUsed(q, r') && StoresMiss(q, r, r') && 0 <= x < TWO64 && InHeader(r', x)
    requires forall x :: 0 <= x < TWO64 && !q.InUsed(x) && !Stores(r, x) ==> m'[x] == m[x]
    ensures m'[x] == m[x]
  {
  }

  lemma PerformClear(s: Abs, s': Abs, q: Queue, r: Request)
    requires s.disk == s'.disk && SameOutsideUsed(s.mem, s'.mem, q) && Region(r.daddr, r.dlen) && ClearOfUsed(q, r)
    ensures Perform(s, r).disk == Perform(s', r).disk
    ensures SameOutsideUsed(Perform(s, r).mem, Perform(s', r).mem, q)
  {
    forall k | 0 <= k < DISK_SIZE ensures DiskByte(s, r, k) == DiskByte(s', r, k) {
      if Fits(r) && r.sector * SECTOR_SIZE <= k < r.sector * SECTOR_SIZE + r.dlen {
        assert InData(r, r.daddr + k - r.sector * SECTOR_SIZE);
      }
    }
  }

  /** The reference machine never looks at the used ring. */
  lemma {:induction false} PerformAllClear(s: Abs, s': Abs, q: Queue, rs: seq<Request>)
    requires s.disk == s'.disk && SameOutsideUsed(s.mem, s'.mem, q)
    requires forall r :: r in rs ==> Region(r.daddr, r.dlen) && ClearOfUsed(q, r)
    ensures PerformAll(s, rs).disk == PerformAll(s', rs).disk
    ensures SameOutsideUsed(PerformAll(s, rs).mem, PerformAll(s', rs).mem, q)
    decreases rs
  {
    if rs != [] {
      assert rs[0] in rs;
      PerformClear(s, s', q, rs[0]);
      PerformAllClear(Perform(s, rs[0]), Perform(s', rs[0]), q, rs[1..]);
    }
  }

  /** What a batch of requests rs, taken from b and m up to index `to`, must have led to. */
  ghost predicate Refines(b: Blk, q: Queue, m: Mem, rs: seq<Request>, to: u16, o: Outcome)
    requires WellFormed(q, rs)
  {
    var a := PerformAll(Abs(b.disk, m), rs);
    && o.b == Advanced(b, rs != [], a.disk, to)
    && SameOutsideUsed(o.m, a.mem, q)
    && Appended(m, o.m, q, Completions(rs))
  }

  /** The device after a batch: only these fields move, and an interrupt is raised when it was not empty. */
  function Advanced(b: Blk, some: bool, disk: Disk, to: u16): Blk {
    b.(disk := disk, lastAvail := to, intStatus := if some then SetBit0(b.intStatus) else b.intStatus, irq := b.irq || some)
  }

  lemma AdvancedTwice(b: Blk, d: Disk, u: u16, some: bool, d': Disk, to: u16)
    ensures Advanced(Advanced(b, true, d, u), some, d', to) == Advanced(b, true, d', to)
  {
  }

  lemma RefinesNil(b: Blk, q: Queue, m: Mem)
    requires WellFormed(q, [])
    ensures Refines(b, q, m, [], b.lastAvail, Outcome(b, m))
  {
  }

  lemma RefinesCons(b: Blk, q: Queue, m: Mem, r: Request, rs: seq<Request>, mid: Outcome, to: u16, o: Outcome)
    requires WellFormed(q, [r] + rs) && WellFormed(q, rs) && GoodChain(q, r) && ClearOfUsed(q, r)
    requires Served(b, q, m, r, mid) && Refines(mid.b, q, mid.m, rs, to, o)
    ensures Refines(b, q, m, [r] + rs, to, o)
  {
    ServedBytes(b, q, m, r, mid);
    EffectCons(b, q, m, r, rs, mid);
    UsedCons(b, q, m, r, rs, mid, o.m);
    AdvancedTwice(b, mid.b.disk, mid.b.lastAvail, rs != [], o.b.disk, to);
  }

  lemma EffectCons(b: Blk, q: Queue, m: Mem, r: Request, rs: seq<Request>, mid: Outcome)
    requires Region(r.daddr, r.dlen) && (forall r :: r in rs ==> Region(r.daddr, r.dlen) && ClearOfUsed(q, r))
    requires mid.b.disk == Perform(Abs(b.disk, m), r).disk && SameOutsideUsed(mid.m, Perform(Abs(b.disk, m), r).mem, q)
    ensures forall r' :: r' in [r] + rs ==> Region(r'.daddr, r'.dlen)
    ensures var a, a' := PerformAll(Abs(b.disk, m), [r] + rs), PerformAll(Abs(mid.b.disk, mid.m), rs);
            a.disk == a'.disk && SameOutsideUsed(a'.mem, a.mem, q)
  {
    assert ([r] + rs)[1..] == rs;
    PerformAllClear(Abs(mid.b.disk, mid.m), Perform(Abs(b.disk, m), r), q, rs);
  }

  lemma UsedCons(b: Blk, q: Queue, m: Mem, r: Request, rs: seq<Request>, mid: Outcome, m': Mem)
    requires q.LaidOut() && RingSize(q.num) && |rs| < q.num && GoodChain(q, r)
    requires Served(b, q, m, r, mid) && Same(m, Perform(Abs(b.disk, m), r).mem, q.Used(), 4 + 8 * q.num)
    requires Appended(mid.m, m', q, Completions(rs))
    ensures Appended(m, m', q, Completions([r] + rs))
  {
    var pm := Perform(Abs(b.disk, m), r).mem;
    assert ([r] + rs)[1..] == rs;
    AppendedCons(pm, mid.m, m', q, Completion(r.head, r.dlen), Completions(rs));
    AppendedFrom(m, pm, m', q, Completions([r] + rs));
  }

  /** The first step of a well-formed batch, and the batch it leaves. */
  lemma FirstStep(b: Blk, q: Queue, m: Mem, n: nat, rs: seq<Request>)
    requires 0 < n && 0 < q.num && rs == Pending(m, q, b.hostOff, b.lastAvail, n) && WellFormed(q, rs)
    ensures rs[0] == Decode(m, q, b.hostOff, b.lastAvail) && !Stray(rs[0])
    ensures GoodChain(q, rs[0]) && ClearOfUsed(q, rs[0]) && Served(b, q, m, rs[0], ServeOne(b, q, m))
    ensures Pending(ServeOne(b, q, m).m, q, b.hostOff, Next16(b.lastAvail), n - 1) == rs[1..] && WellFormed(q, rs[1..])
  {
    var r := rs[0];
    assert r in rs;
    RangeCheckExact(r);
    ServeOneEffect(b, q, m, r);
    ServedBytes(b, q, m, r, ServeOne(b, q, m));
    RestWaits(m, ServeOne(b, q, m).m, q, b.hostOff, b.lastAvail, n, rs);
  }

  /**
   * Batch refinement. For a well-formed queue, one run of the request loop has
   * exactly the effect on the disk and on guest memory of performing the waiting
   * requests one by one on the reference machine, and appends exactly their
   * completions, in available-ring order, to the used ring.
   */
  lemma {:induction false} BatchRefines(b: Blk, q: Queue, m: Mem, to: u16, n: nat, rs: seq<Request>)
    requires 0 < q.num && n == Dist(b.lastAvail, to)
    requires rs == Pending(m, q, b.hostOff, b.lastAvail, n) && WellFormed(q, rs)
    ensures BatchSafe(b, q, m, to) && Refines(b, q, m, rs, to, Batch(b, q, m, to))
    decreases n
  {
    if b.lastAvail == to {
      RefinesNil(b, q, m);
    } else {
      var o := FirstOutcome(b, q, m, n, rs);
      DistNext(b.lastAvail, to);
      BatchRefines(o.b, q, o.m, to, n - 1, rs[1..]);
      assert rs == [rs[0]] + rs[1..];
      RefinesCons(b, q, m, rs[0], rs[1..], o, to, Batch(o.b, q, o.m, to));
    }
  }

  /** FirstStep, naming the state it leads to. */
  lemma FirstOutcome(b: Blk, q: Queue, m: Mem, n: nat, rs: seq<Request>) returns (o: Outcome)
    requires 0 < n && 0 < q.num && rs == Pending(m, q, b.hostOff, b.lastAvail, n) && WellFormed(q, rs)
    ensures !Stray(Decode(m, q, b.hostOff, b.lastAvail)) && o == ServeOne(b, q, m)
    ensures GoodChain(q, rs[0]) && ClearOfUsed(q, rs[0]) && Served(b, q, m, rs[0], o)
    ensures o.b.lastAvail == Next16(b.lastAvail) && o.b.hostOff == b.hostOff
    ensures Pending(o.m, q, o.b.hostOff, o.b.lastAvail, n - 1) == rs[1..] && WellFormed(q, rs[1..])
  {
    FirstStep(b, q, m, n, rs);
    o := ServeOne(b, q, m);
  }

  // ---- what the guest can rely on ----

  /** A rejected request changes neither the disk nor any memory but its status byte. */
  lemma RejectedChangesNothing(s: Abs, r: Request)
    requires Region(r.daddr, r.dlen) && !Fits(r)
    ensures Perform(s, r).disk == s.disk
    ensures forall x :: 0 <= x < TWO64 && x != r.saddr ==> Perform(s, r).mem[x] == s.mem[x]
    ensures Perform(s, r).mem[r.saddr] == 1
  {
    assert Perform(s, r).disk == s.disk;
  }

  /** Sectors written by w and read back by r arrive as they were sent. */
  lemma WriteThenRead(s: Abs, w: Request, r: Request, i: int)
    requires Region(w.daddr, w.dlen) && Region(r.daddr, r.dlen)
    requires IsWrite(w) && !IsWrite(r) && Fits(w) && w.sector == r.sector && w.dlen == r.dlen
    requires !InData(r, r.saddr) && 0 <= i < r.dlen
    ensures Perform(Perform(s, w), r).mem[r.daddr + i] == s.mem[w.daddr + i]
  {
    var t := Perform(s, w);
    assert t.disk[w.sector * SECTOR_SIZE + i] == DiskByte(s, w, w.sector * SECTOR_SIZE + i);
    assert Perform(t, r).mem[r.daddr + i] == MemByte(t, r, r.daddr + i);
  }

  lemma {:induction false} UntouchedByAll(s: Abs, rs: seq<Request>, x: int)
    requires 0 <= x < TWO64 && forall r :: r in rs ==> Region(r.daddr, r.dlen) && !Stores(r, x)
    ensures PerformAll(s, rs).mem[x] == s.mem[x]
    decreases rs
  {
    if rs != [] {
      assert rs[0] in rs;
      PerformStores(s, rs[0]);
      UntouchedByAll(Perform(s, rs[0]), rs[1..], x);
    }
  }

  /** After a whole batch each status byte says whether its request fitted, unless a later request stores over it. */
  lemma {:induction false} StatusAfterBatch(s: Abs, rs: seq<Request>, k: int)
    requires 0 <= k < |rs| && (forall r :: r in rs ==> Region(r.daddr, r.dlen))
    requires forall j :: k < j < |rs| ==> !Stores(rs[j], rs[k].saddr)
    ensures PerformAll(s, rs).mem[rs[k].saddr] == if Fits(rs[k]) then 0 else 1
    decreases rs
  {
    var r := rs[0];
    assert r in rs;
    if k > 0 {
      StatusAfterBatch(Perform(s, r), rs[1..], k - 1);
    } else {
      forall r' | r' in rs[1..] ensures !Stores(r', r.saddr) {
        var j :| 0 <= j < |rs[1..]| && rs[1..][j] == r';
        assert rs[j + 1] == r';
      }
      UntouchedByAll(Perform(s, r), rs[1..], r.saddr);
      assert Perform(s, r).mem[r.saddr] == MemByte(s, r, r.saddr);
    }
  }
}
