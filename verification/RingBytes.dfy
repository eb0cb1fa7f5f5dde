/**
 * The rings as the guest writes them and reads them back: byte addresses computed from
 * the queue's base and size, and little-endian words in memory. What a notification
 * serves, and what it publishes, in these terms alone.
 */
module RingBytes {
  import opened Words
  import opened HostMemory
  import opened Virtqueue
  import B = BlockSpec
  import R = BlockRefinement
  import C = ConsoleSpec

  /** Address of the available ring's index, and of the entry that counter value `avail` selects. */
  function IdxAddr(q: Queue): int { q.base + 16 * q.num + 2 }

  function EntryAddr(q: Queue, avail: u16): int
    requires 0 < q.num
  {
    q.base + 16 * q.num + 4 + 2 * (avail % q.num)
  }

  /** The used ring starts at the first page boundary past the available ring and its event word. */
  predicate UsedAt(q: Queue, u: int) {
    u % 4096 == 0 && q.base + 16 * q.num + 6 + 2 * q.num <= u < q.base + 16 * q.num + 6 + 2 * q.num + 4096
  }

  lemma UsedIsAt(q: Queue, u: int)
    requires q.LaidOut() && UsedAt(q, u)
    ensures q.Used() == u
  {
    q.LayoutDisjoint(0);
  }

  lemma AvailIs(m: Mem, q: Queue)
    requires q.LaidOut()
    ensures AvailIdx(m, q) == Word(m, IdxAddr(q), 2)
  {
    q.LayoutDisjoint(0);
    LoadIsWord(m, IdxAddr(q), 2);
  }

  lemma HeadIs(m: Mem, q: Queue, avail: u16)
    requires q.LaidOut()
    ensures HeadAt(m, q, avail) == Word(m, EntryAddr(q, avail), 2)
  {
    q.LayoutDisjoint(0);
    LoadIsWord(m, EntryAddr(q, avail), 2);
  }

  // ---- block requests ----

  /** The chain that starts at the descriptor the ring entry names, with the offset added to its three addresses. */
  predicate RequestAt(m: Mem, q: Queue, off: u64, avail: u16, r: B.Request)
    requires 0 < q.num
  {
    && Word(m, EntryAddr(q, avail), 2) == r.head
    && ChainAt(m, q.base, off, r)
    && Word(m, r.haddr, 4) == r.kind && Word(m, r.haddr + 8, 8) == r.sector
  }

  /** Descriptors are 16 bytes: address at +0, length at +8, next at +14. */
  predicate ChainAt(m: Mem, base: int, off: u64, r: B.Request) {
    && (Word(m, base + 16 * r.head, 8) + off) % TWO64 == r.haddr && Word(m, base + 16 * r.head + 14, 2) == r.hnext
    && (Word(m, base + 16 * r.hnext, 8) + off) % TWO64 == r.daddr && Word(m, base + 16 * r.hnext + 8, 4) == r.dlen
    && Word(m, base + 16 * r.hnext + 14, 2) == r.dnext
    && (Word(m, base + 16 * r.dnext, 8) + off) % TWO64 == r.saddr
  }

  lemma DescIs(m: Mem, q: Queue, i: u16)
    ensures DescAddr(m, q, i) == Word(m, q.base + 16 * i, 8)
    ensures DescLen(m, q, i) == Word(m, q.base + 16 * i + 8, 4)
    ensures DescNext(m, q, i) == Word(m, q.base + 16 * i + 14, 2)
  {
    LoadIsWord(m, q.base + 16 * i, 8);
    LoadIsWord(m, q.base + 16 * i + 8, 4);
    LoadIsWord(m, q.base + 16 * i + 14, 2);
  }

  lemma ShiftIs(x: u64, off: u64)
    ensures Wrap(x + off) == (x + off) % TWO64
  {
  }

  lemma ChainIs(m: Mem, q: Queue, off: u64, head: u16, r: B.Request)
    requires B.Follows(m, q, off, head, r)
    ensures r.head == head && ChainAt(m, q.base, off, r)
  {
    DescIs(m, q, r.head);
    DescIs(m, q, r.hnext);
    DescIs(m, q, r.dnext);
    ShiftIs(DescAddr(m, q, r.head), off);
    ShiftIs(DescAddr(m, q, r.hnext), off);
    ShiftIs(DescAddr(m, q, r.dnext), off);
  }

  /** What the device decodes is what the bytes say. */
  lemma DecodedIsThere(m: Mem, q: Queue, off: u64, avail: u16, r: B.Request)
    requires q.LaidOut() && r == B.Decode(m, q, off, avail)
    ensures RequestAt(m, q, off, avail, r)
  {
    var head := HeadAt(m, q, avail);
    HeadIs(m, q, avail);
    B.FollowIsChain(m, q, off, head, r);
    ChainIs(m, q, off, head, r);
    LoadIsWord(m, r.haddr, 4);
    LoadIsWord(m, r.haddr + 8, 8);
  }

  /** The bytes say one thing only. */
  lemma RequestUnique(m: Mem, q: Queue, off: u64, avail: u16, r: B.Request, r': B.Request)
    requires 0 < q.num && RequestAt(m, q, off, avail, r) && RequestAt(m, q, off, avail, r')
    ensures r == r'
  {
    B.SameChain(r, r');
  }

  /** rs are the requests that wait from counter value `last` on, as the bytes of m have them. */
  ghost predicate Waiting(m: Mem, q: Queue, off: u64, last: u16, rs: seq<B.Request>)
    requires 0 < q.num
  {
    forall k :: 0 <= k < |rs| ==> RequestAt(m, q, off, Advance(last, k), rs[k])
  }

  lemma {:induction false} WaitingIsPending(m: Mem, q: Queue, off: u64, last: u16, rs: seq<B.Request>)
    requires q.LaidOut() && Waiting(m, q, off, last, rs)
    ensures rs == R.Pending(m, q, off, last, |rs|)
    decreases |rs|
  {
    if rs != [] {
      var r := B.Decode(m, q, off, last);
      assert RequestAt(m, q, off, Advance(last, 0), rs[0]);
      DecodedIsThere(m, q, off, last, r);
      RequestUnique(m, q, off, last, r, rs[0]);
      WaitingTail(m, q, off, last, rs);
      WaitingIsPending(m, q, off, Next16(last), rs[1..]);
    }
  }

  lemma WaitingTail(m: Mem, q: Queue, off: u64, last: u16, rs: seq<B.Request>)
    requires 0 < q.num && rs != [] && Waiting(m, q, off, last, rs)
    ensures Waiting(m, q, off, Next16(last), rs[1..])
  {
    forall k | 0 <= k < |rs[1..]| ensures RequestAt(m, q, off, Advance(Next16(last), k), rs[1..][k]) {
      assert RequestAt(m, q, off, Advance(last, k + 1), rs[k + 1]);
    }
  }

  /**
   * A notification serves exactly the requests the available ring holds. Let the bytes of
   * memory, from the device's position up to the ring's index, hold the well-formed
   * requests rs. Then disk and memory end as the reference machine leaves them after rs.
   */
  lemma BatchServesRing(b: B.Blk, q: Queue, m: Mem, rs: seq<B.Request>)
    requires b.queuePfn != 0 && b.queueNum != 0 && q == Queue((b.queuePfn * b.pageSize + b.hostOff) % TWO64, b.queueNum)
    requires R.WellFormed(q, rs)
    requires Advance(b.lastAvail, |rs|) == Word(m, IdxAddr(q), 2) && |rs| < TWO16
    requires Waiting(m, q, b.hostOff, b.lastAvail, rs)
    ensures B.NotifySafe(b, m) && R.Refines(b, q, m, rs, Word(m, IdxAddr(q), 2), B.Notify(b, m))
  {
    var to := AvailIdx(m, q);
    AvailIs(m, q);
    WaitingIsPending(m, q, b.hostOff, b.lastAvail, rs);
    DistOf(b.lastAvail, |rs|, to);
    PlacedAt(b, q);
    R.BatchRefines(b, q, m, to, |rs|, rs);
  }

  lemma PlacedAt(b: B.Blk, q: Queue)
    requires q == Queue((b.queuePfn * b.pageSize + b.hostOff) % TWO64, b.queueNum)
    ensures B.QueueOf(b) == q
  {
    WrapIsMod(b.queuePfn * b.pageSize + b.hostOff);
  }

  lemma WrapIsMod(x: int)
    ensures Wrap(x) == x % TWO64
  {
  }

  lemma DistOf(from: u16, n: nat, to: u16)
    requires to == Advance(from, n) && n < TWO16
    ensures Dist(from, to) == n
  {
    AdvanceIsSum(from, n);
  }

  /** And the k-th of its completions is in the k-th used element from the old used index on: head and length. */
  lemma CompletionInRing(m: Mem, m': Mem, q: Queue, u: int, used: u16, cs: seq<Completion>, k: nat)
    requires q.LaidOut() && UsedAt(q, u) && used == Word(m, u + 2, 2) && Appended(m, m', q, cs) && k < |cs|
    ensures var e := u + 4 + 8 * (Advance(used, k) % q.num);
      Word(m', e, 4) == cs[k].head && Word(m', e + 4, 4) == cs[k].len
    ensures Word(m', u + 2, 2) == Advance(used, |cs|)
  {
    UsedIsAt(q, u);
    LoadIsWord(m, u + 2, 2);
    LoadIsWord(m', u + 2, 2);
    SlotsAt(used, |cs|, q.num, k);
    var e := q.Elem(Slots(used, |cs|, q.num)[k]);
    LoadIsWord(m', e, 4);
    LoadIsWord(m', e + 4, 4);
  }

  // ---- console buffers ----

  /** The buffer of the descriptor the ring entry names. */
  predicate BufferAt(m: Mem, q: Queue, off: u64, avail: u16, b: C.Buffer)
    requires 0 < q.num
  {
    && Word(m, EntryAddr(q, avail), 2) == b.head
    && (Word(m, q.base + 16 * b.head, 8) + off) % TWO64 == b.addr && Word(m, q.base + 16 * b.head + 8, 4) == b.len
  }

  lemma BufferIsThere(m: Mem, q: Queue, off: u64, avail: u16, b: C.Buffer)
    requires q.LaidOut()
    ensures BufferAt(m, q, off, avail, b) <==> b == C.Decode(m, q, off, avail)
  {
    var head := HeadAt(m, q, avail);
    HeadIs(m, q, avail);
    DescIs(m, q, head);
    ShiftIs(DescAddr(m, q, head), off);
  }

  ghost predicate BuffersWait(m: Mem, q: Queue, off: u64, last: u16, bs: seq<C.Buffer>)
    requires 0 < q.num
  {
    forall k :: 0 <= k < |bs| ==> BufferAt(m, q, off, Advance(last, k), bs[k])
  }

  lemma {:induction false} BuffersArePending(m: Mem, q: Queue, off: u64, last: u16, bs: seq<C.Buffer>)
    requires q.LaidOut() && BuffersWait(m, q, off, last, bs)
    ensures bs == C.Pending(m, q, off, last, |bs|)
    decreases |bs|
  {
    if bs != [] {
      assert BufferAt(m, q, off, Advance(last, 0), bs[0]);
      BufferIsThere(m, q, off, last, bs[0]);
      BuffersTail(m, q, off, last, bs);
      BuffersArePending(m, q, off, Next16(last), bs[1..]);
    }
  }

  lemma BuffersTail(m: Mem, q: Queue, off: u64, last: u16, bs: seq<C.Buffer>)
    requires 0 < q.num && bs != [] && BuffersWait(m, q, off, last, bs)
    ensures BuffersWait(m, q, off, Next16(last), bs[1..])
  {
    forall k | 0 <= k < |bs[1..]| ensures BufferAt(m, q, off, Advance(Next16(last), k), bs[1..][k]) {
      assert BufferAt(m, q, off, Advance(last, k + 1), bs[k + 1]);
    }
  }

  /** A notification prints exactly the buffers the available ring holds, in its order, and returns their heads. */
  lemma DrainServesRing(c: C.Con, q: Queue, m: Mem, out: seq<u8>, bs: seq<C.Buffer>)
    requires c.queuePfn != 0 && c.queueNum != 0 && q == Queue((c.queuePfn * c.pageSize + c.hostOff) % TWO64, c.queueNum)
    requires C.WellFormed(q, bs)
    requires Advance(c.lastAvail, |bs|) == Word(m, IdxAddr(q), 2) && |bs| < TWO16
    requires BuffersWait(m, q, c.hostOff, c.lastAvail, bs)
    ensures var o := C.Notify(c, m, out);
      && o.out == out + C.Payloads(m, bs) && Appended(m, o.m, q, C.Completions(bs)) && SameOutsideUsed(m, o.m, q)
      && o.c.lastAvail == Word(m, IdxAddr(q), 2)
  {
    var to := AvailIdx(m, q);
    AvailIs(m, q);
    BuffersArePending(m, q, c.hostOff, c.lastAvail, bs);
    DistOf(c.lastAvail, |bs|, to);
    PlacedConsole(c, q);
    C.DrainRefines(C.Progress(c.lastAvail, m, out), q, c.hostOff, to, |bs|, bs);
    NotifyDrains(c, q, m, out, to);
  }

  lemma PlacedConsole(c: C.Con, q: Queue)
    requires q == Queue((c.queuePfn * c.pageSize + c.hostOff) % TWO64, c.queueNum)
    ensures C.QueueOf(c) == q
  {
    WrapIsMod(c.queuePfn * c.pageSize + c.hostOff);
  }

  lemma NotifyDrains(c: C.Con, q: Queue, m: Mem, out: seq<u8>, to: u16)
    requires C.Ready(c) && C.QueueOf(c) == q && to == AvailIdx(m, q)
    ensures var o, p := C.Notify(c, m, out), C.Drain(C.Progress(c.lastAvail, m, out), q, c.hostOff, to);
      o.out == p.out && o.m == p.m && o.c.lastAvail == p.last
  {
  }
}
