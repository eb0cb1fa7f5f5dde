/**
 * A device whose queue and buffers lie in one host block reads and writes that
 * block only. Nothing is assumed about how the guest arranged them inside it:
 * buffers may overlap the rings or each other.
 */
module DeviceLocality {
  import opened Words
  import opened HostMemory
  import opened Virtqueue
  import opened Stage2
  import B = BlockSpec
  import C = ConsoleSpec

  /** [a, a+n) lies in the block that starts at lo. */
  predicate Inside(lo: int, a: int, n: int) { lo <= a && 0 <= n && a + n <= lo + GIB }

  predicate BlockPlace(lo: int) { Region(lo, GIB) }

  /** m' differs from m inside the block only. */
  ghost predicate Confined(m: Mem, m': Mem, lo: int)
    requires BlockPlace(lo)
  {
    SameBut(m, m', lo, GIB)
  }

  ghost predicate Alike(m: Mem, m': Mem, lo: int)
    requires BlockPlace(lo)
  {
    Same(m, m', lo, GIB)
  }

  lemma LoadLocal(m: Mem, m': Mem, a: int, n: nat, lo: int)
    requires BlockPlace(lo) && Alike(m, m', lo) && Inside(lo, a, n)
    ensures Load(m, a, n) == Load(m', a, n)
  {
    LoadSame(m, m', a, n);
  }

  lemma StoreLocal(m: Mem, m': Mem, a: int, n: nat, v: nat, lo: int)
    requires BlockPlace(lo) && Alike(m, m', lo) && Inside(lo, a, n) && v < Pow256(n)
    ensures Alike(Store(m, a, n, v), Store(m', a, n, v), lo) && Confined(m, Store(m, a, n, v), lo)
    decreases n
  {
    if n > 0 {
      StoreLocal(Put(m, a, v % 0x100), Put(m', a, v % 0x100), a + 1, n - 1, v / 0x100, lo);
    }
  }

  lemma FillLocal(m: Mem, m': Mem, a: int, bs: seq<u8>, lo: int)
    requires BlockPlace(lo) && Alike(m, m', lo) && Inside(lo, a, |bs|)
    ensures Alike(Fill(m, a, bs), Fill(m', a, bs), lo) && Confined(m, Fill(m, a, bs), lo)
  {
    FillAt(m, a, bs);
    FillAt(m', a, bs);
    var f, f' := Fill(m, a, bs), Fill(m', a, bs);
    forall x | lo <= x < lo + GIB ensures f[x] == f'[x] {
      if a <= x < a + |bs| {
        assert f[x] == f[a..a + |bs|][x - a] && f'[x] == f'[a..a + |bs|][x - a];
      }
    }
  }

  lemma BytesLocal(m: Mem, m': Mem, a: int, n: nat, lo: int)
    requires BlockPlace(lo) && Alike(m, m', lo) && Inside(lo, a, n)
    ensures Bytes(m, a, n) == Bytes(m', a, n)
  {
    assert m[a..a + n] == m'[a..a + n];
  }

  /** The used index and the element it selects lie in the block. */
  predicate UsedInside(m: Mem, q: Queue, lo: int)
    requires 0 < q.num
  {
    Inside(lo, q.Used() + 2, 2) && Inside(lo, q.Elem(UsedIdx(m, q) % q.num), 8)
  }

  lemma PublishLocal(m: Mem, m': Mem, q: Queue, head: u16, len: u32, lo: int)
    requires BlockPlace(lo) && Alike(m, m', lo) && 0 < q.num && UsedInside(m, q, lo)
    ensures UsedInside(m', q, lo)
    ensures Alike(Publish(m, q, head, len), Publish(m', q, head, len), lo) && Confined(m, Publish(m, q, head, len), lo)
  {
    LoadLocal(m, m', q.Used() + 2, 2, lo);
    var u := UsedIdx(m, q);
    PublishAtLocal(m, m', q.Elem(u % q.num), head, len, q.Used() + 2, Next16(u), lo);
  }

  lemma PublishAtLocal(m: Mem, m': Mem, ue: int, head: u32, len: u32, idx: int, u: u16, lo: int)
    requires BlockPlace(lo) && Alike(m, m', lo) && Inside(lo, ue, 8) && Inside(lo, idx, 2)
    ensures var n, n' := Wr16(Wr32(Wr32(m, ue, head), ue + 4, len), idx, u), Wr16(Wr32(Wr32(m', ue, head), ue + 4, len), idx, u);
            Alike(n, n', lo) && Confined(m, n, lo)
  {
    var m1, m1' := Wr32(m, ue, head), Wr32(m', ue, head);
    StoreLocal(m, m', ue, 4, head, lo);
    var m2, m2' := Wr32(m1, ue + 4, len), Wr32(m1', ue + 4, len);
    StoreLocal(m1, m1', ue + 4, 4, len, lo);
    StoreLocal(m2, m2', idx, 2, u, lo);
  }

  lemma DescLocal(m: Mem, m': Mem, q: Queue, i: u16, lo: int)
    requires BlockPlace(lo) && Alike(m, m', lo) && Inside(lo, q.base + 16 * i, 16)
    ensures DescAddr(m', q, i) == DescAddr(m, q, i)
    ensures DescLen(m', q, i) == DescLen(m, q, i)
    ensures DescNext(m', q, i) == DescNext(m, q, i)
  {
    LoadLocal(m, m', q.base + 16 * i, 8, lo);
    LoadLocal(m, m', q.base + 16 * i + 8, 4, lo);
    LoadLocal(m, m', q.base + 16 * i + 14, 2, lo);
  }

  predicate HeadInside(q: Queue, last: u16, lo: int)
    requires 0 < q.num
  {
    Inside(lo, q.Avail() + 4 + 2 * (last % q.num), 2)
  }

  lemma HeadLocal(m: Mem, m': Mem, q: Queue, last: u16, lo: int)
    requires BlockPlace(lo) && Alike(m, m', lo) && 0 < q.num && HeadInside(q, last, lo)
    ensures HeadAt(m', q, last) == HeadAt(m, q, last)
  {
    LoadLocal(m, m', q.Avail() + 4 + 2 * (last % q.num), 2, lo);
  }

  // ---- block device ----

  /** Every address a chain makes the device touch. */
  predicate ChainInside(q: Queue, r: B.Request, lo: int) {
    && Inside(lo, q.base + 16 * r.head, 16) && Inside(lo, q.base + 16 * r.hnext, 16) && Inside(lo, q.base + 16 * r.dnext, 16)
    && Inside(lo, r.haddr, 16) && Inside(lo, r.saddr, 1)
    && (B.Accepted(r) ==> Inside(lo, r.daddr, r.dlen))
  }

  predicate RequestInside(b: B.Blk, q: Queue, m: Mem, lo: int)
    requires 0 < q.num
  {
    var r := B.Decode(m, q, b.hostOff, b.lastAvail);
    && HeadInside(q, b.lastAvail, lo) && ChainInside(q, r, lo)
    && !B.Stray(r) && UsedInside(B.Transfer(b.disk, m, r).1, q, lo)
  }

  predicate BatchInside(b: B.Blk, q: Queue, m: Mem, to: u16, lo: int)
    requires 0 < q.num
    decreases Dist(b.lastAvail, to)
  {
    b.lastAvail != to ==>
      && RequestInside(b, q, m, lo)
      && var o := B.ServeOne(b, q, m); DistNext(b.lastAvail, to); BatchInside(o.b, q, o.m, to, lo)
  }

  lemma FollowLocal(m: Mem, m': Mem, q: Queue, off: u64, head: u16, r: B.Request, lo: int)
    requires BlockPlace(lo) && Alike(m, m', lo) && r == B.Follow(m, q, off, head) && ChainInside(q, r, lo)
    ensures B.Follow(m', q, off, head) == r
  {
    var r' := B.Follow(m', q, off, head);
    B.FollowIsChain(m, q, off, head, r);
    B.FollowIsChain(m', q, off, head, r');
    HeaderLocal(m, m', q, off, head, r, r', lo);
  }

  lemma HeaderLocal(m: Mem, m': Mem, q: Queue, off: u64, head: u16, r: B.Request, r': B.Request, lo: int)
    requires BlockPlace(lo) && Alike(m, m', lo) && ChainInside(q, r, lo)
    requires B.Follows(m, q, off, head, r) && r.kind == Rd32(m, r.haddr) && r.sector == Rd64(m, r.haddr + 8)
    requires B.Follows(m', q, off, head, r') && r'.kind == Rd32(m', r'.haddr) && r'.sector == Rd64(m', r'.haddr + 8)
    ensures r' == r
  {
    ChainLocal(m, m', q, off, head, r, r', lo);
    HeaderWordsLocal(m, m', r, r', lo);
    B.SameChain(r, r');
  }

  lemma HeaderWordsLocal(m: Mem, m': Mem, r: B.Request, r': B.Request, lo: int)
    requires BlockPlace(lo) && Alike(m, m', lo) && Inside(lo, r.haddr, 16) && r'.haddr == r.haddr
    requires r.kind == Rd32(m, r.haddr) && r.sector == Rd64(m, r.haddr + 8)
    requires r'.kind == Rd32(m', r'.haddr) && r'.sector == Rd64(m', r'.haddr + 8)
    ensures r'.kind == r.kind && r'.sector == r.sector
  {
    LoadLocal(m, m', r.haddr, 4, lo);
    LoadLocal(m, m', r.haddr + 8, 8, lo);
  }

  lemma ChainLocal(m: Mem, m': Mem, q: Queue, off: u64, head: u16, r: B.Request, r': B.Request, lo: int)
    requires BlockPlace(lo) && Alike(m, m', lo) && B.Follows(m, q, off, head, r) && ChainInside(q, r, lo)
    requires B.Follows(m', q, off, head, r')
    ensures r'.head == r.head && r'.haddr == r.haddr && r'.hnext == r.hnext && r'.daddr == r.daddr
    ensures r'.dlen == r.dlen && r'.dnext == r.dnext && r'.saddr == r.saddr
  {
    DescLocal(m, m', q, head, lo);
    DescLocal(m, m', q, r.hnext, lo);
    DescLocal(m, m', q, r.dnext, lo);
  }

  lemma TransferLocal(d: B.Disk, m: Mem, m': Mem, r: B.Request, lo: int)
    requires BlockPlace(lo) && Alike(m, m', lo) && !B.Stray(r)
    requires Inside(lo, r.saddr, 1) && (B.Accepted(r) ==> Inside(lo, r.daddr, r.dlen))
    ensures B.Transfer(d, m, r).0 == B.Transfer(d, m', r).0
    ensures Alike(B.Transfer(d, m, r).1, B.Transfer(d, m', r).1, lo) && Confined(m, B.Transfer(d, m, r).1, lo)
  {
    if B.Accepted(r) {
      if r.kind == 1 {
        BytesLocal(m, m', r.daddr, r.dlen, lo);
      } else {
        FillLocal(m, m', r.daddr, d[B.Offset(r)..B.Offset(r) + r.dlen], lo);
      }
    }
  }

  lemma ServeOneLocal(b: B.Blk, q: Queue, m: Mem, m': Mem, lo: int)
    requires BlockPlace(lo) && Alike(m, m', lo) && 0 < q.num && RequestInside(b, q, m, lo)
    ensures RequestInside(b, q, m', lo)
    ensures B.ServeOne(b, q, m).b == B.ServeOne(b, q, m').b
    ensures Alike(B.ServeOne(b, q, m).m, B.ServeOne(b, q, m').m, lo) && Confined(m, B.ServeOne(b, q, m).m, lo)
  {
    var r := B.Decode(m, q, b.hostOff, b.lastAvail);
    HeadLocal(m, m', q, b.lastAvail, lo);
    FollowLocal(m, m', q, b.hostOff, r.head, r, lo);
    TransferLocal(b.disk, m, m', r, lo);
    PublishLocal(B.Transfer(b.disk, m, r).1, B.Transfer(b.disk, m', r).1, q, r.head, r.dlen, lo);
  }

  /** A confined batch depends on the block only and changes the block only. */
  lemma {:induction false} BatchLocal(b: B.Blk, q: Queue, m: Mem, m': Mem, to: u16, lo: int)
    requires BlockPlace(lo) && Alike(m, m', lo) && 0 < q.num && BatchInside(b, q, m, to, lo)
    ensures BatchInside(b, q, m', to, lo) && B.BatchSafe(b, q, m, to) && B.BatchSafe(b, q, m', to)
    ensures var o, o' := B.Batch(b, q, m, to), B.Batch(b, q, m', to);
            o.b == o'.b && Alike(o.m, o'.m, lo) && Confined(m, o.m, lo)
    decreases Dist(b.lastAvail, to)
  {
    if b.lastAvail != to {
      ServeOneLocal(b, q, m, m', lo);
      DistNext(b.lastAvail, to);
      var o, o' := B.ServeOne(b, q, m), B.ServeOne(b, q, m');
      BatchLocal(o.b, q, o.m, o'.m, to, lo);
    }
  }

  predicate BlockInside(b: B.Blk, m: Mem, lo: int) {
    B.Ready(b) ==>
      var q := B.QueueOf(b);
      Inside(lo, q.Avail() + 2, 2) && BatchInside(b, q, m, AvailIdx(m, q), lo)
  }

  lemma BlockLocal(b: B.Blk, m: Mem, m': Mem, lo: int)
    requires BlockPlace(lo) && Alike(m, m', lo) && BlockInside(b, m, lo)
    ensures BlockInside(b, m', lo) && B.NotifySafe(b, m) && B.NotifySafe(b, m')
    ensures var o, o' := B.Notify(b, m), B.Notify(b, m');
            o.b == o'.b && Alike(o.m, o'.m, lo) && Confined(m, o.m, lo)
  {
    if B.Ready(b) {
      ReadyBlockLocal(b, B.QueueOf(b), m, m', lo);
    }
  }

  lemma ReadyBlockLocal(b: B.Blk, q: Queue, m: Mem, m': Mem, lo: int)
    requires BlockPlace(lo) && Alike(m, m', lo) && 0 < q.num && Inside(lo, q.Avail() + 2, 2)
    requires BatchInside(b, q, m, AvailIdx(m, q), lo)
    ensures AvailIdx(m', q) == AvailIdx(m, q)
    ensures var to := AvailIdx(m, q);
      && BatchInside(b, q, m', to, lo) && B.BatchSafe(b, q, m, to) && B.BatchSafe(b, q, m', to)
      && var o, o' := B.Batch(b, q, m, to), B.Batch(b, q, m', to);
         o.b == o'.b && Alike(o.m, o'.m, lo) && Confined(m, o.m, lo)
  {
    LoadLocal(m, m', q.Avail() + 2, 2, lo);
    BatchLocal(b, q, m, m', AvailIdx(m, q), lo);
  }

  // ---- console ----

  predicate BufferInside(p: C.Progress, q: Queue, off: u64, lo: int)
    requires 0 < q.num
  {
    var b := C.Decode(p.m, q, off, p.last);
    && HeadInside(q, p.last, lo) && Inside(lo, q.base + 16 * b.head, 16)
    && Inside(lo, b.addr, b.len) && UsedInside(p.m, q, lo)
  }

  predicate DrainInside(p: C.Progress, q: Queue, off: u64, to: u16, lo: int)
    requires 0 < q.num
    decreases Dist(p.last, to)
  {
    p.last != to ==>
      BufferInside(p, q, off, lo) && (DistNext(p.last, to); DrainInside(C.EmitOne(p, q, off), q, off, to, lo))
  }

  lemma BufferLocal(m: Mem, m': Mem, q: Queue, off: u64, last: u16, lo: int)
    requires BlockPlace(lo) && Alike(m, m', lo) && 0 < q.num && HeadInside(q, last, lo)
    requires Inside(lo, q.base + 16 * HeadAt(m, q, last), 16)
    ensures C.Decode(m', q, off, last) == C.Decode(m, q, off, last)
  {
    HeadLocal(m, m', q, last, lo);
    DescLocal(m, m', q, HeadAt(m, q, last), lo);
  }

  lemma EmitOneLocal(p: C.Progress, p': C.Progress, q: Queue, off: u64, lo: int)
    requires BlockPlace(lo) && Alike(p.m, p'.m, lo) && p.last == p'.last && p.out == p'.out
    requires 0 < q.num && BufferInside(p, q, off, lo)
    ensures BufferInside(p', q, off, lo)
    ensures var e, e' := C.EmitOne(p, q, off), C.EmitOne(p', q, off);
            e.last == e'.last && e.out == e'.out && Alike(e.m, e'.m, lo) && Confined(p.m, e.m, lo)
  {
    var b := C.Decode(p.m, q, off, p.last);
    BufferLocal(p.m, p'.m, q, off, p.last, lo);
    BytesLocal(p.m, p'.m, b.addr, b.len, lo);
    PublishLocal(p.m, p'.m, q, b.head, 0, lo);
  }

  lemma {:induction false} DrainLocal(p: C.Progress, p': C.Progress, q: Queue, off: u64, to: u16, lo: int)
    requires BlockPlace(lo) && Alike(p.m, p'.m, lo) && p.last == p'.last && p.out == p'.out
    requires 0 < q.num && DrainInside(p, q, off, to, lo)
    ensures DrainInside(p', q, off, to, lo)
    ensures var e, e' := C.Drain(p, q, off, to), C.Drain(p', q, off, to);
            e.last == e'.last && e.out == e'.out && Alike(e.m, e'.m, lo) && Confined(p.m, e.m, lo)
    decreases Dist(p.last, to)
  {
    if p.last != to {
      EmitOneLocal(p, p', q, off, lo);
      DistNext(p.last, to);
      DrainLocal(C.EmitOne(p, q, off), C.EmitOne(p', q, off), q, off, to, lo);
    }
  }

  predicate ConsoleInside(c: C.Con, m: Mem, out: seq<u8>, lo: int) {
    C.Ready(c) ==>
      var q := C.QueueOf(c);
      Inside(lo, q.Avail() + 2, 2) && DrainInside(C.Progress(c.lastAvail, m, out), q, c.hostOff, AvailIdx(m, q), lo)
  }

  lemma ConsoleLocal(c: C.Con, m: Mem, m': Mem, out: seq<u8>, lo: int)
    requires BlockPlace(lo) && Alike(m, m', lo) && ConsoleInside(c, m, out, lo)
    ensures ConsoleInside(c, m', out, lo)
    ensures var o, o' := C.Notify(c, m, out), C.Notify(c, m', out);
            o.c == o'.c && o.out == o'.out && Alike(o.m, o'.m, lo) && Confined(m, o.m, lo)
  {
    if C.Ready(c) {
      ReadyConsoleLocal(c, C.QueueOf(c), m, m', out, lo);
    }
  }

  lemma ReadyConsoleLocal(c: C.Con, q: Queue, m: Mem, m': Mem, out: seq<u8>, lo: int)
    requires BlockPlace(lo) && Alike(m, m', lo) && C.Ready(c) && q == C.QueueOf(c) && Inside(lo, q.Avail() + 2, 2)
    requires DrainInside(C.Progress(c.lastAvail, m, out), q, c.hostOff, AvailIdx(m, q), lo)
    ensures AvailIdx(m', q) == AvailIdx(m, q)
    ensures DrainInside(C.Progress(c.lastAvail, m', out), q, c.hostOff, AvailIdx(m', q), lo)
    ensures var o, o' := C.Notify(c, m, out), C.Notify(c, m', out);
            o.c == o'.c && o.out == o'.out && Alike(o.m, o'.m, lo) && Confined(m, o.m, lo)
  {
    var p, p' := C.Progress(c.lastAvail, m, out), C.Progress(c.lastAvail, m', out);
    LoadLocal(m, m', q.Avail() + 2, 2, lo);
    DrainLocal(p, p', q, c.hostOff, AvailIdx(m, q), lo);
  }
}
