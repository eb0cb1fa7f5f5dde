/**
 * The console device: one notification emits the buffer of every waiting head
 * descriptor and publishes the heads to the used ring.
 */
module ConsoleSpec {
  import opened Words
  import opened HostMemory
  import opened Virtqueue

  /** struct vcon. */
  datatype Con = Con(status: u32, pageSize: u32, queueNum: u32, queuePfn: u32, intStatus: u32,
                     lastAvail: u16, irq: bool, hostOff: u64)

  function QueueOf(c: Con): Queue { Queue(Wrap(c.queuePfn * c.pageSize + c.hostOff), c.queueNum) }

  datatype Buffer = Buffer(head: u16, addr: u64, len: u32)

  function Decode(m: Mem, q: Queue, off: u64, last: u16): Buffer
    requires 0 < q.num
  {
    var head := HeadAt(m, q, last);
    Buffer(head, Wrap(DescAddr(m, q, head) + off), DescLen(m, q, head))
  }

  /** Ring position, memory and console output while the loop runs. */
  datatype Progress = Progress(last: u16, m: Mem, out: seq<u8>)

  function EmitOne(p: Progress, q: Queue, off: u64): Progress
    requires 0 < q.num
  {
    var b := Decode(p.m, q, off, p.last);
    Progress(Next16(p.last), Publish(p.m, q, b.head, 0), p.out + Bytes(p.m, b.addr, b.len))
  }

  function Drain(p: Progress, q: Queue, off: u64, to: u16): Progress
    requires 0 < q.num
    decreases Dist(p.last, to)
  {
    if p.last == to then p else Drain(EmitOne(p, q, off), q, off, to)
  }

  datatype Outcome = Outcome(c: Con, m: Mem, out: seq<u8>)

  predicate Ready(c: Con) { c.queuePfn != 0 && c.queueNum != 0 }

  function Advanced(c: Con, some: bool, to: u16): Con {
    c.(lastAvail := to, intStatus := if some then SetBit0(c.intStatus) else c.intStatus, irq := c.irq || some)
  }

  /** A write to QueueNotify. */
  function Notify(c: Con, m: Mem, out: seq<u8>): Outcome
  {
    if !Ready(c) then Outcome(c, m, out)
    else
      var to := AvailIdx(m, QueueOf(c));
      var p := Drain(Progress(c.lastAvail, m, out), QueueOf(c), c.hostOff, to);
      Outcome(Advanced(c, c.lastAvail != to, p.last), p.m, p.out)
  }

  // ---- the batch as a whole ----

  function Pending(m: Mem, q: Queue, off: u64, last: u16, n: nat): (bs: seq<Buffer>)
    requires 0 < q.num
    ensures |bs| == n
    decreases n
  {
    if n == 0 then [] else [Decode(m, q, off, last)] + Pending(m, q, off, Next16(last), n - 1)
  }

  function Completions(bs: seq<Buffer>): (cs: seq<Completion>)
    ensures |cs| == |bs|
  {
    if bs == [] then [] else [Completion(bs[0].head, 0)] + Completions(bs[1..])
  }

  /** The payloads of the waiting buffers, one after the other. */
  function Payloads(m: Mem, bs: seq<Buffer>): seq<u8>
  {
    if bs == [] then [] else Bytes(m, bs[0].addr, bs[0].len) + Payloads(m, bs[1..])
  }

  ghost predicate GoodBuffer(q: Queue, b: Buffer) {
    && b.head < q.num && Region(b.addr, b.len)
    && forall x :: b.addr <= x < b.addr + b.len ==> !q.InUsed(x)
  }

  ghost predicate WellFormed(q: Queue, bs: seq<Buffer>) {
    && q.LaidOut() && RingSize(q.num) && |bs| <= q.num
    && forall b :: b in bs ==> GoodBuffer(q, b)
  }

  lemma DecodeStable(m: Mem, m': Mem, q: Queue, off: u64, last: u16)
    requires q.LaidOut() && SameOutsideUsed(m, m', q) && HeadAt(m, q, last) < q.num
    ensures Decode(m', q, off, last) == Decode(m, q, off, last)
  {
    forall x | 0 <= x < TWO64 && q.InRings(x) ensures m'[x] == m[x] {
      q.LayoutDisjoint(x);
    }
    HeadStable(m, m', q, last);
    DescStable(m, m', q, HeadAt(m, q, last));
  }

  lemma {:induction false} PendingStable(m: Mem, m': Mem, q: Queue, off: u64, last: u16, n: nat)
    requires q.LaidOut() && SameOutsideUsed(m, m', q)
    requires forall b :: b in Pending(m, q, off, last, n) ==> b.head < q.num
    ensures Pending(m', q, off, last, n) == Pending(m, q, off, last, n)
    decreases n
  {
    if n > 0 {
      var bs := Pending(m, q, off, last, n);
      assert bs[0] in bs && forall b :: b in Pending(m, q, off, Next16(last), n - 1) ==> b in bs;
      DecodeStable(m, m', q, off, last);
      PendingStable(m, m', q, off, Next16(last), n - 1);
    }
  }

  lemma {:induction false} PayloadsStable(m: Mem, m': Mem, q: Queue, bs: seq<Buffer>)
    requires SameOutsideUsed(m, m', q)
    requires forall b :: b in bs ==> GoodBuffer(q, b)
    ensures Payloads(m, bs) == Payloads(m', bs)
  {
    if bs != [] {
      assert GoodBuffer(q, bs[0]);
      PayloadsStable(m, m', q, bs[1..]);
    }
  }

  ghost predicate Refines(p: Progress, q: Queue, bs: seq<Buffer>, to: u16, p': Progress)
    requires WellFormed(q, bs)
  {
    && p'.last == to
    && p'.out == p.out + Payloads(p.m, bs)
    && SameOutsideUsed(p.m, p'.m, q)
    && Appended(p.m, p'.m, q, Completions(bs))
  }

  lemma RefinesCons(p: Progress, q: Queue, b: Buffer, bs: seq<Buffer>, mid: Progress, to: u16, p': Progress)
    requires WellFormed(q, [b] + bs) && WellFormed(q, bs) && GoodBuffer(q, b)
    requires mid.out == p.out + Bytes(p.m, b.addr, b.len)
    requires Published(p.m, mid.m, q, UsedIdx(p.m, q), UsedIdx(p.m, q) % q.num, Completion(b.head, 0))
    requires Refines(mid, q, bs, to, p')
    ensures Refines(p, q, [b] + bs, to, p')
  {
    assert ([b] + bs)[1..] == bs;
    OutputCons(p, q, b, bs, mid);
    AppendedCons(p.m, mid.m, p'.m, q, Completion(b.head, 0), Completions(bs));
  }

  lemma OutputCons(p: Progress, q: Queue, b: Buffer, bs: seq<Buffer>, mid: Progress)
    requires forall b' :: b' in bs ==> GoodBuffer(q, b')
    requires mid.out == p.out + Bytes(p.m, b.addr, b.len) && SameOutsideUsed(p.m, mid.m, q)
    ensures mid.out + Payloads(mid.m, bs) == p.out + Payloads(p.m, [b] + bs)
  {
    PayloadsStable(p.m, mid.m, q, bs);
    Regroup(p.out, Bytes(p.m, b.addr, b.len), Payloads(p.m, bs));
    assert ([b] + bs)[1..] == bs;
  }

  lemma Regroup(x: seq<u8>, y: seq<u8>, z: seq<u8>)
    ensures (x + y) + z == x + (y + z)
  {
  }

  /**
   * For a well-formed queue the loop emits the concatenation of the waiting
   * payloads, appends exactly their heads to the used ring, in order, and
   * changes no other memory.
   */
  lemma {:induction false} DrainRefines(p: Progress, q: Queue, off: u64, to: u16, n: nat, bs: seq<Buffer>)
    requires 0 < q.num && n == Dist(p.last, to) && bs == Pending(p.m, q, off, p.last, n) && WellFormed(q, bs)
    ensures Refines(p, q, bs, to, Drain(p, q, off, to))
    decreases n
  {
    if p.last == to {
      RefinesNil(p, q);
    } else {
      var p1 := FirstStep(p, q, off, n, bs);
      DistNext(p.last, to);
      DrainRefines(p1, q, off, to, n - 1, bs[1..]);
      assert bs == [bs[0]] + bs[1..];
      RefinesCons(p, q, bs[0], bs[1..], p1, to, Drain(p1, q, off, to));
    }
  }

  lemma RefinesNil(p: Progress, q: Queue)
    requires WellFormed(q, [])
    ensures Refines(p, q, [], p.last, p)
  {
  }

  lemma FirstStep(p: Progress, q: Queue, off: u64, n: nat, bs: seq<Buffer>) returns (p': Progress)
    requires 0 < n && 0 < q.num && bs == Pending(p.m, q, off, p.last, n) && WellFormed(q, bs)
    ensures p' == EmitOne(p, q, off) && p'.last == Next16(p.last)
    ensures GoodBuffer(q, bs[0]) && p'.out == p.out + Bytes(p.m, bs[0].addr, bs[0].len)
    ensures Published(p.m, p'.m, q, UsedIdx(p.m, q), UsedIdx(p.m, q) % q.num, Completion(bs[0].head, 0))
    ensures Pending(p'.m, q, off, p'.last, n - 1) == bs[1..] && WellFormed(q, bs[1..])
  {
    p' := EmitOne(p, q, off);
    assert bs[0] in bs && forall b :: b in bs[1..] ==> b in bs;
    PublishEffect(p.m, q, bs[0].head, 0);
    PendingStable(p.m, p'.m, q, off, Next16(p.last), n - 1);
  }
}
