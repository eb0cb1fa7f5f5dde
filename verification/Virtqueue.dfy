/**
 * The legacy split virtqueue shared by the console and block devices: a
 * descriptor table, the available ring the guest fills and the used ring the
 * device publishes to, all in guest RAM.
 */
module Virtqueue {
  import opened Words
  import opened HostMemory

  /** A queue as a device sees it: the translated base address and the queue size. */
  datatype Queue = Queue(base: u64, num: u32) {
    function Avail(): u64 { Wrap(base + 16 * num) }

    function Used(): u64 {
      var end := Wrap(base + 16 * num + 6 + 2 * num + 4095);
      end - end % 4096
    }

    /** Address of element `slot` of the used ring. */
    function Elem(slot: int): int { Used() + 4 + 8 * slot }

    /** The whole queue, used ring included, lies below the end of the address space. */
    predicate LaidOut() {
      0 < num && base + 16 * num + 6 + 2 * num + 4095 < TWO64 && Used() + 4 + 8 * num <= TWO64
    }

    /** x is a byte of the used ring (flags, idx and the elements). */
    predicate InUsed(x: int) { Used() <= x < Used() + 4 + 8 * num }

    /** x is a byte of the descriptor table or of the available ring. */
    predicate InRings(x: int) { base <= x < base + 16 * num + 4 + 2 * num }

    /** The rings of a laid-out queue are where the guest's legacy layout puts them, apart from the used ring. */
    lemma LayoutDisjoint(x: int)
      requires LaidOut()
      ensures Avail() == base + 16 * num && Used() % 4096 == 0
      ensures base + 16 * num + 6 + 2 * num <= Used() < base + 16 * num + 6 + 2 * num + 4096
      ensures !(InUsed(x) && InRings(x))
    {
    }
  }

  /** m and m' may differ in the used ring only. */
  ghost predicate SameOutsideUsed(m: Mem, m': Mem, q: Queue) {
    forall x :: 0 <= x < TWO64 && !q.InUsed(x) ==> m[x] == m'[x]
  }

  function DescAddr(m: Mem, q: Queue, i: u16): u64 { Rd64(m, q.base + 16 * i) }

  function DescLen(m: Mem, q: Queue, i: u16): u32 { Rd32(m, q.base + 16 * i + 8) }

  function DescNext(m: Mem, q: Queue, i: u16): u16 { Rd16(m, q.base + 16 * i + 14) }

  function AvailIdx(m: Mem, q: Queue): u16 { Rd16(m, q.Avail() + 2) }

  function HeadAt(m: Mem, q: Queue, last: u16): u16
    requires 0 < q.num
  {
    Rd16(m, q.Avail() + 4 + 2 * (last % q.num))
  }

  function UsedIdx(m: Mem, q: Queue): u16 { Rd16(m, q.Used() + 2) }

  /** Store (head, len) in the element the used index selects, then bump the index. */
  function Publish(m: Mem, q: Queue, head: u16, len: u32): Mem
    requires 0 < q.num
  {
    var u := UsedIdx(m, q);
    PublishAt(m, q, u, u % q.num, head, len)
  }

  function PublishAt(m: Mem, q: Queue, u: u16, slot: int, head: u16, len: u32): Mem {
    Wr16(Wr32(Wr32(m, q.Elem(slot), head), q.Elem(slot) + 4, len), q.Used() + 2, Next16(u))
  }

  datatype Completion = Completion(head: u16, len: u32)

  predicate Holds(m: Mem, q: Queue, slot: int, c: Completion) {
    Rd32(m, q.Elem(slot)) == c.head && Rd32(m, q.Elem(slot) + 4) == c.len
  }

  /** The slots that n publications starting at used counter u fill, in order. */
  function Slots(u: u16, n: nat, num: u32): (s: seq<int>)
    requires 0 < num
    ensures |s| == n
    decreases n
  {
    if n == 0 then [] else [u % num] + Slots(Next16(u), n - 1, num)
  }

  /** The k-th of them is the slot of the k-th 16-bit counter value after u. */
  lemma {:induction false} SlotsAt(u: u16, n: nat, num: u32, k: nat)
    requires 0 < num && k < n
    ensures Slots(u, n, num)[k] == Advance(u, k) % num
    decreases n
  {
    if k > 0 {
      SlotsAt(Next16(u), n - 1, num, k - 1);
    }
  }

  /** At most a ring-full of publications never reuses a slot, even across the 16-bit wrap. */
  lemma FirstSlotFresh(u: u16, n: nat, num: u32)
    requires RingSize(num) && 0 < n <= num
    ensures u % num !in Slots(Next16(u), n - 1, num)
  {
    var rest := Slots(Next16(u), n - 1, num);
    forall k | 0 <= k < |rest| ensures rest[k] != u % num {
      SlotsAt(Next16(u), n - 1, num, k);
      LaterSlotDiffers(u, k, num);
    }
  }

  lemma LaterSlotDiffers(u: u16, k: nat, num: u32)
    requires RingSize(num) && k + 1 < num
    ensures Advance(Next16(u), k) % num != u % num
  {
    AdvanceIsSum(u, k + 1);
    SlotsDistinct(u, Advance(u, k + 1), k + 1, num);
  }

  ghost predicate ElemSame(m: Mem, m': Mem, q: Queue, slot: int)
    requires q.LaidOut() && 0 <= slot < q.num
  {
    Same(m, m', q.Elem(slot), 8)
  }

  /**
   * Between m and m' exactly the completions cs were appended to the used ring:
   * each sits in its own consecutive slot, the index advanced by their number,
   * and neither the flags nor any other element changed.
   */
  ghost predicate Appended(m: Mem, m': Mem, q: Queue, cs: seq<Completion>)
    requires q.LaidOut()
  {
    AppendedAt(m, m', q, UsedIdx(m, q), Slots(UsedIdx(m, q), |cs|, q.num), cs)
  }

  ghost predicate AppendedAt(m: Mem, m': Mem, q: Queue, u: u16, slots: seq<int>, cs: seq<Completion>)
    requires q.LaidOut() && |slots| == |cs|
  {
    && UsedIdx(m', q) == Advance(u, |cs|)
    && (forall k :: 0 <= k < |cs| ==> Holds(m', q, slots[k], cs[k]))
    && (forall s :: 0 <= s < q.num && s !in slots ==> ElemSame(m, m', q, s))
    && Same(m, m', q.Used(), 2)
  }

  /** What one publication does, byte by byte: one element, the index, nothing else. */
  lemma PublishAtBytes(m: Mem, q: Queue, u: u16, slot: int, head: u16, len: u32)
    requires q.LaidOut() && 0 <= slot < q.num
    ensures var m' := PublishAt(m, q, u, slot, head, len);
      && UsedIdx(m', q) == Next16(u)
      && Holds(m', q, slot, Completion(head, len))
      && (forall x :: 0 <= x < TWO64 && !(q.Used() + 2 <= x < q.Used() + 4) && !(q.Elem(slot) <= x < q.Elem(slot) + 8)
            ==> m'[x] == m[x])
  {
    ThreeStores(m, q.Elem(slot), head, len, q.Used() + 2, Next16(u));
  }

  lemma ThreeStores(m: Mem, ue: int, head: u32, len: u32, idx: int, u: u16)
    requires 0 <= idx && idx + 2 <= ue && ue + 8 <= TWO64
    ensures var m' := Wr16(Wr32(Wr32(m, ue, head), ue + 4, len), idx, u);
      && Rd16(m', idx) == u && Rd32(m', ue) == head && Rd32(m', ue + 4) == len
      && (forall x :: 0 <= x < TWO64 && !(idx <= x < idx + 2) && !(ue <= x < ue + 8) ==> m'[x] == m[x])
  {
    var m1 := Wr32(m, ue, head);
    var m2 := Wr32(m1, ue + 4, len);
    StoreEffect(m, ue, 4, head);
    StoreEffect(m1, ue + 4, 4, len);
    StoreEffect(m2, idx, 2, u);
    LoadSame(m1, Wr16(m2, idx, u), ue, 4);
    LoadSame(m2, Wr16(m2, idx, u), ue + 4, 4);
  }

  /** The same, element by element. */
  ghost predicate Published(m: Mem, m': Mem, q: Queue, u: u16, slot: int, c: Completion)
    requires q.LaidOut()
  {
    && UsedIdx(m', q) == Next16(u)
    && Holds(m', q, slot, c)
    && (forall s :: 0 <= s < q.num && s != slot ==> ElemSame(m, m', q, s))
    && Same(m, m', q.Used(), 2)
    && (forall x :: 0 <= x < TWO64 && !q.InUsed(x) ==> m'[x] == m[x])
  }

  lemma PublishEffect(m: Mem, q: Queue, head: u16, len: u32)
    requires q.LaidOut()
    ensures Published(m, Publish(m, q, head, len), q, UsedIdx(m, q), UsedIdx(m, q) % q.num, Completion(head, len))
  {
    var u := UsedIdx(m, q);
    PublishAtEffect(m, PublishAt(m, q, u, u % q.num, head, len), q, u, u % q.num, head, len);
  }

  lemma PublishAtEffect(m: Mem, m': Mem, q: Queue, u: u16, slot: int, head: u16, len: u32)
    requires q.LaidOut() && 0 <= slot < q.num && m' == PublishAt(m, q, u, slot, head, len)
    ensures Published(m, m', q, u, slot, Completion(head, len))
  {
    PublishAtBytes(m, q, u, slot, head, len);
    forall s | 0 <= s < q.num && s != slot ensures ElemSame(m, m', q, s) {
    }
  }

  lemma HoldsSame(m: Mem, m': Mem, q: Queue, slot: int, c: Completion)
    requires q.LaidOut() && 0 <= slot < q.num && Holds(m, q, slot, c) && ElemSame(m, m', q, slot)
    ensures Holds(m', q, slot, c)
  {
    LoadSame(m, m', q.Elem(slot), 4);
    LoadSame(m, m', q.Elem(slot) + 4, 4);
  }

  lemma ElemSameTrans(m: Mem, m': Mem, m'': Mem, q: Queue, slot: int)
    requires q.LaidOut() && 0 <= slot < q.num && ElemSame(m, m', q, slot) && ElemSame(m', m'', q, slot)
    ensures ElemSame(m, m'', q, slot)
  {
  }

  /**
   * One publication followed by the completions cs appends one more, as long as
   * no more than a ring-full is outstanding.
   */
  lemma AppendedCons(m: Mem, mid: Mem, m': Mem, q: Queue, c: Completion, cs: seq<Completion>)
    requires q.LaidOut() && RingSize(q.num) && |cs| < q.num
    requires Published(m, mid, q, UsedIdx(m, q), UsedIdx(m, q) % q.num, c) && Appended(mid, m', q, cs)
    ensures Appended(m, m', q, [c] + cs)
  {
    var u := UsedIdx(m, q);
    FirstSlotFresh(u, |cs| + 1, q.num);
    AppendedAtCons(m, mid, m', q, u, u % q.num, Slots(Next16(u), |cs|, q.num), c, cs);
  }

  lemma AppendedAtCons(m: Mem, mid: Mem, m': Mem, q: Queue, u: u16, slot: int, slots: seq<int>, c: Completion,
                       cs: seq<Completion>)
    requires q.LaidOut() && 0 <= slot < q.num && |slots| == |cs| && slot !in slots
    requires Published(m, mid, q, u, slot, c) && AppendedAt(mid, m', q, Next16(u), slots, cs)
    ensures AppendedAt(m, m', q, u, [slot] + slots, [c] + cs)
  {
    HoldsSame(mid, m', q, slot, c);
    var all := [slot] + slots;
    forall s | 0 <= s < q.num && s !in all ensures ElemSame(m, m', q, s) {
      assert all[0] == slot && forall k :: 0 <= k < |slots| ==> all[k + 1] == slots[k];
      ElemSameTrans(m, mid, m', q, s);
    }
  }

  /** Appended looks at the used ring only. */
  lemma AppendedFrom(m0: Mem, m: Mem, m': Mem, q: Queue, cs: seq<Completion>)
    requires q.LaidOut() && Same(m0, m, q.Used(), 4 + 8 * q.num) && Appended(m, m', q, cs)
    ensures Appended(m0, m', q, cs)
  {
    LoadSame(m0, m, q.Used() + 2, 2);
    forall s | 0 <= s < q.num && s !in Slots(UsedIdx(m, q), |cs|, q.num) ensures ElemSame(m0, m', q, s) {
      assert ElemSame(m0, m, q, s);
      ElemSameTrans(m0, m, m', q, s);
    }
  }

  // ---- the guest's side of the queue is read through these bytes only ----

  lemma DescStable(m: Mem, m': Mem, q: Queue, i: u16)
    requires q.LaidOut() && i < q.num && (forall x :: 0 <= x < TWO64 && q.InRings(x) ==> m'[x] == m[x])
    ensures DescAddr(m', q, i) == DescAddr(m, q, i)
    ensures DescLen(m', q, i) == DescLen(m, q, i)
    ensures DescNext(m', q, i) == DescNext(m, q, i)
  {
    var a := q.base + 16 * i;
    LoadSame(m, m', a, 8);
    LoadSame(m, m', a + 8, 4);
    LoadSame(m, m', a + 14, 2);
  }

  lemma HeadStable(m: Mem, m': Mem, q: Queue, last: u16)
    requires q.LaidOut() && (forall x :: 0 <= x < TWO64 && q.InRings(x) ==> m'[x] == m[x])
    ensures HeadAt(m', q, last) == HeadAt(m, q, last)
  {
    LoadSame(m, m', q.Avail() + 4 + 2 * (last % q.num), 2);
  }
}
