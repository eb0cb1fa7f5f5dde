/**
 * Exactly-once consumption over whole runs: any interleaving of notifications
 * with guest memory updates that leave the used index alone.
 */
module QueueRuns {
  import opened Words
  import opened HostMemory
  import opened Virtqueue
  import B = BlockSpec
  import R = BlockRefinement
  import C = ConsoleSpec
  import opened RingBytes

  function Sum(ns: seq<nat>): nat { if ns == [] then 0 else Sum(ns[..|ns| - 1]) + ns[|ns| - 1] }

  /** A counter that advances by ns[i] at step i has advanced by their sum in the end. */
  lemma {:induction false} CounterRun(us: seq<u16>, ns: seq<nat>)
    requires |us| == |ns| + 1 && forall i :: 0 <= i < |ns| ==> us[i + 1] == Advance(us[i], ns[i])
    ensures us[|ns|] == Advance(us[0], Sum(ns))
    decreases |ns|
  {
    if ns != [] {
      var k := |ns| - 1;
      CounterRun(us[..k + 1], ns[..k]);
      AdvanceTwice(us[0], Sum(ns[..k]), ns[k]);
    }
  }

  // ---- block device, its queue placed at q ----

  function BlockWaiting(s: B.Outcome, q: Queue): seq<B.Request>
    requires 0 < q.num
  {
    R.Pending(s.m, q, s.b.hostOff, s.b.lastAvail, Dist(s.b.lastAvail, AvailIdx(s.m, q)))
  }

  /** A notification of the device in state s, the guest having followed the rules. */
  ghost predicate BlockKick(s: B.Outcome, q: Queue, s': B.Outcome) {
    && 0 < q.num && R.WellFormed(q, BlockWaiting(s, q))
    && B.BatchSafe(s.b, q, s.m, AvailIdx(s.m, q)) && s' == B.Batch(s.b, q, s.m, AvailIdx(s.m, q))
  }

  /** QueueNotify of a ready device is such a step; well-formedness alone makes it safe. */
  lemma NotifyIsKick(b: B.Blk, q: Queue, m: Mem)
    requires B.Ready(b) && q == B.QueueOf(b) && R.WellFormed(q, BlockWaiting(B.Outcome(b, m), q))
    ensures B.NotifySafe(b, m) && BlockKick(B.Outcome(b, m), q, B.Notify(b, m))
  {
    var to := AvailIdx(m, q);
    R.BatchRefines(b, q, m, to, Dist(b.lastAvail, to), BlockWaiting(B.Outcome(b, m), q));
  }

  /**
   * One step of a run that serves n chains: a notification, or anything else guest
   * and hypervisor do between notifications. They may change memory, acknowledge
   * and take interrupts, and write the other registers; the used index, the
   * device's position in the ring and its offset are not theirs to change.
   */
  ghost predicate BlockStep(s: B.Outcome, q: Queue, s': B.Outcome, n: nat)
    requires 0 < q.num
  {
    || (BlockKick(s, q, s') && n == |BlockWaiting(s, q)|)
    || (n == 0 && s'.b.lastAvail == s.b.lastAvail && s'.b.hostOff == s.b.hostOff && UsedIdx(s'.m, q) == UsedIdx(s.m, q))
  }

  ghost predicate BlockRun(ss: seq<B.Outcome>, q: Queue, ns: seq<nat>) {
    && 0 < q.num && |ss| == |ns| + 1
    && forall i :: 0 <= i < |ns| ==> BlockStep(ss[i], q, ss[i + 1], ns[i])
  }

  lemma RefinesCounts(b: B.Blk, q: Queue, m: Mem, rs: seq<B.Request>, to: u16, o: B.Outcome)
    requires R.WellFormed(q, rs) && R.Refines(b, q, m, rs, to, o)
    ensures UsedIdx(o.m, q) == Advance(UsedIdx(m, q), |rs|) && o.b.lastAvail == to
  {
  }

  lemma BlockStepCounts(s: B.Outcome, q: Queue, s': B.Outcome, n: nat)
    requires 0 < q.num && BlockStep(s, q, s', n)
    ensures UsedIdx(s'.m, q) == Advance(UsedIdx(s.m, q), n) && s'.b.lastAvail == Advance(s.b.lastAvail, n)
  {
    if BlockKick(s, q, s') && n == |BlockWaiting(s, q)| {
      var to, rs := AvailIdx(s.m, q), BlockWaiting(s, q);
      R.BatchRefines(s.b, q, s.m, to, Dist(s.b.lastAvail, to), rs);
      AdvanceDist(s.b.lastAvail, to);
      RefinesCounts(s.b, q, s.m, rs, to, s');
    }
  }

  /**
   * Over any run the used index and the available counter both advance by
   * exactly the number of chains served, so their distance never changes.
   */
  lemma BlockRunBalanced(ss: seq<B.Outcome>, q: Queue, ns: seq<nat>)
    requires BlockRun(ss, q, ns)
    ensures var s, e := ss[0], ss[|ns|];
      && UsedIdx(e.m, q) == Advance(UsedIdx(s.m, q), Sum(ns))
      && e.b.lastAvail == Advance(s.b.lastAvail, Sum(ns))
      && Dist(e.b.lastAvail, UsedIdx(e.m, q)) == Dist(s.b.lastAvail, UsedIdx(s.m, q))
  {
    UsedRun(ss, q, ns);
    AvailRun(ss, q, ns);
    DistKept(ss[0].b.lastAvail, UsedIdx(ss[0].m, q), Sum(ns));
  }

  lemma UsedRun(ss: seq<B.Outcome>, q: Queue, ns: seq<nat>)
    requires BlockRun(ss, q, ns)
    ensures UsedIdx(ss[|ns|].m, q) == Advance(UsedIdx(ss[0].m, q), Sum(ns))
  {
    var us := seq(|ss|, i requires 0 <= i < |ss| => UsedIdx(ss[i].m, q));
    forall i | 0 <= i < |ns| ensures us[i + 1] == Advance(us[i], ns[i]) {
      BlockStepCounts(ss[i], q, ss[i + 1], ns[i]);
    }
    CounterRun(us, ns);
  }

  lemma AvailRun(ss: seq<B.Outcome>, q: Queue, ns: seq<nat>)
    requires BlockRun(ss, q, ns)
    ensures ss[|ns|].b.lastAvail == Advance(ss[0].b.lastAvail, Sum(ns))
  {
    var ls := seq(|ss|, i requires 0 <= i < |ss| => ss[i].b.lastAvail);
    forall i | 0 <= i < |ns| ensures ls[i + 1] == Advance(ls[i], ns[i]) {
      BlockStepCounts(ss[i], q, ss[i + 1], ns[i]);
    }
    CounterRun(ls, ns);
  }

  lemma LaterOf(r: B.Request, rest: seq<B.Request>, k: nat)
    requires 0 < k <= |rest|
    ensures ([r] + rest)[k] == rest[k - 1]
  {
  }

  lemma {:induction false} PendingAt(m: Mem, q: Queue, off: u64, last: u16, n: nat, k: nat)
    requires 0 < q.num && k < n
    ensures R.Pending(m, q, off, last, n)[k] == B.Decode(m, q, off, Advance(last, k))
    decreases n
  {
    var rest := R.Pending(m, q, off, Next16(last), n - 1);
    if k > 0 {
      PendingAt(m, q, off, Next16(last), n - 1, k - 1);
      LaterOf(B.Decode(m, q, off, last), rest, k);
    }
  }

  lemma {:induction false} CompletionAt(rs: seq<B.Request>, k: nat)
    requires k < |rs|
    ensures R.Completions(rs)[k] == Completion(rs[k].head, rs[k].dlen)
    decreases rs
  {
    if k > 0 {
      CompletionAt(rs[1..], k - 1);
    }
  }

  /**
   * In bytes: the descriptor number in the ring entry of available counter `avail`, and the
   * length in the descriptor chained to it, are in the used element of used counter `used`.
   */
  predicate ServedAs(s: B.Outcome, q: Queue, s': B.Outcome, avail: u16, used: u16)
    requires 0 < q.num
  {
    var h := Word(s.m, EntryAddr(q, avail), 2);
    var e, next := q.Used() + 4 + 8 * (used % q.num), Word(s.m, q.base + 16 * h + 14, 2);
    Word(s'.m, e, 4) == h && Word(s'.m, e + 4, 4) == Word(s.m, q.base + 16 * next + 8, 4)
  }

  /** A completion of the request the bytes hold. */
  lemma CompletedAs(s: B.Outcome, q: Queue, s': B.Outcome, avail: u16, used: u16, r: B.Request)
    requires q.LaidOut() && r == B.Decode(s.m, q, s.b.hostOff, avail)
    requires Holds(s'.m, q, used % q.num, Completion(r.head, r.dlen))
    ensures ServedAs(s, q, s', avail, used)
  {
    HoldsWords(s'.m, q, used % q.num, Completion(r.head, r.dlen));
    RequestWords(s.m, q, s.b.hostOff, avail, r);
  }

  lemma HoldsWords(m: Mem, q: Queue, slot: int, c: Completion)
    requires Holds(m, q, slot, c)
    ensures Word(m, q.Used() + 4 + 8 * slot, 4) == c.head && Word(m, q.Used() + 4 + 8 * slot + 4, 4) == c.len
  {
    LoadIsWord(m, q.Elem(slot), 4);
    LoadIsWord(m, q.Elem(slot) + 4, 4);
  }

  lemma RequestWords(m: Mem, q: Queue, off: u64, avail: u16, r: B.Request)
    requires q.LaidOut() && r == B.Decode(m, q, off, avail)
    ensures Word(m, EntryAddr(q, avail), 2) == r.head && Word(m, q.base + 16 * r.head + 14, 2) == r.hnext
    ensures Word(m, q.base + 16 * r.hnext + 8, 4) == r.dlen
  {
    DecodedIsThere(m, q, off, avail, r);
  }

  lemma KickServes(s: B.Outcome, q: Queue, s': B.Outcome, k: nat, avail: u16, used: u16)
    requires 0 < q.num && BlockKick(s, q, s') && k < |BlockWaiting(s, q)|
    requires avail == Advance(s.b.lastAvail, k) && used == Advance(UsedIdx(s.m, q), k)
    ensures ServedAs(s, q, s', avail, used)
  {
    var to, rs := AvailIdx(s.m, q), BlockWaiting(s, q);
    R.BatchRefines(s.b, q, s.m, to, Dist(s.b.lastAvail, to), rs);
    PendingAt(s.m, q, s.b.hostOff, s.b.lastAvail, |rs|, k);
    CompletionAt(rs, k);
    SlotsAt(UsedIdx(s.m, q), |rs|, q.num, k);
    AppendedHolds(s.m, s'.m, q, R.Completions(rs), k);
    CompletedAs(s, q, s', avail, used, rs[k]);
  }

  lemma AppendedHolds(m: Mem, m': Mem, q: Queue, cs: seq<Completion>, k: nat)
    requires q.LaidOut() && Appended(m, m', q, cs) && k < |cs|
    ensures Holds(m', q, Slots(UsedIdx(m, q), |cs|, q.num)[k], cs[k])
  {
  }

  /**
   * Exactly once, over any run: the j-th chain served since the start is the one at
   * the j-th available counter, and its completion is stored under the j-th used
   * counter. The chains of step i are numbered Sum(ns[..i]) on, so every chain
   * served has one number and no two have the same.
   */
  lemma BlockRunExactlyOnce(ss: seq<B.Outcome>, q: Queue, ns: seq<nat>, i: nat, j: nat, avail: u16, used: u16)
    requires BlockRun(ss, q, ns) && i < |ns| && Sum(ns[..i]) <= j < Sum(ns[..i]) + ns[i]
    requires avail == Advance(ss[0].b.lastAvail, j) && used == Advance(UsedIdx(ss[0].m, q), j)
    ensures ServedAs(ss[i], q, ss[i + 1], avail, used)
  {
    var s, s', before := ss[i], ss[i + 1], Sum(ns[..i]);
    assert BlockStep(s, q, s', ns[i]);
    PrefixCounts(ss, q, ns, i);
    StepServes(s, q, s', ns[i], before, j, ss[0].b.lastAvail, UsedIdx(ss[0].m, q), avail, used);
  }

  lemma PrefixCounts(ss: seq<B.Outcome>, q: Queue, ns: seq<nat>, i: nat)
    requires BlockRun(ss, q, ns) && i < |ns|
    ensures ss[i].b.lastAvail == Advance(ss[0].b.lastAvail, Sum(ns[..i]))
    ensures UsedIdx(ss[i].m, q) == Advance(UsedIdx(ss[0].m, q), Sum(ns[..i]))
  {
    BlockRunBalanced(ss[..i + 1], q, ns[..i]);
  }

  lemma StepServes(s: B.Outcome, q: Queue, s': B.Outcome, n: nat, before: nat, j: nat, avail0: u16, used0: u16,
                   avail: u16, used: u16)
    requires 0 < q.num && BlockStep(s, q, s', n) && before <= j < before + n
    requires s.b.lastAvail == Advance(avail0, before) && UsedIdx(s.m, q) == Advance(used0, before)
    requires avail == Advance(avail0, j) && used == Advance(used0, j)
    ensures ServedAs(s, q, s', avail, used)
  {
    StepIsKick(s, q, s', n);
    var k := j - before;
    AdvanceRest(avail0, before, s.b.lastAvail, k, j, avail);
    AdvanceRest(used0, before, UsedIdx(s.m, q), k, j, used);
    KickServes(s, q, s', k, avail, used);
  }

  lemma StepIsKick(s: B.Outcome, q: Queue, s': B.Outcome, n: nat)
    requires 0 < q.num && 0 < n && BlockStep(s, q, s', n)
    ensures BlockKick(s, q, s') && n == |BlockWaiting(s, q)|
  {
  }

  lemma AdvanceRest(x: u16, before: nat, mid: u16, k: nat, j: nat, y: u16)
    requires mid == Advance(x, before) && j == before + k && y == Advance(x, j)
    ensures y == Advance(mid, k)
  {
    AdvanceTwice(x, before, k);
  }

  // ---- console, its queue placed at q and its offset off ----

  function ConsoleWaiting(p: C.Progress, q: Queue, off: u64): seq<C.Buffer>
    requires 0 < q.num
  {
    C.Pending(p.m, q, off, p.last, Dist(p.last, AvailIdx(p.m, q)))
  }

  ghost predicate ConsoleKick(p: C.Progress, q: Queue, off: u64, p': C.Progress) {
    && 0 < q.num && C.WellFormed(q, ConsoleWaiting(p, q, off))
    && p' == C.Drain(p, q, off, AvailIdx(p.m, q))
  }

  /** QueueNotify of a ready console is such a step. */
  lemma NotifyIsConsoleKick(c: C.Con, q: Queue, m: Mem, out: seq<u8>)
    requires C.Ready(c) && q == C.QueueOf(c)
    requires C.WellFormed(q, ConsoleWaiting(C.Progress(c.lastAvail, m, out), q, c.hostOff))
    ensures var o := C.Notify(c, m, out);
      && ConsoleKick(C.Progress(c.lastAvail, m, out), q, c.hostOff, C.Progress(o.c.lastAvail, o.m, o.out))
      && (o.c.irq <==> c.irq || ConsoleWaiting(C.Progress(c.lastAvail, m, out), q, c.hostOff) != [])
  {
    var to := AvailIdx(m, q);
    var p := C.Progress(c.lastAvail, m, out);
    C.DrainRefines(p, q, c.hostOff, to, Dist(p.last, to), ConsoleWaiting(p, q, c.hostOff));
  }

  /** One step of a run that makes the buffers bs available and consumes them; a guest step consumes none. */
  ghost predicate ConsoleStep(p: C.Progress, q: Queue, off: u64, p': C.Progress, n: nat, text: seq<u8>)
    requires 0 < q.num
  {
    || (ConsoleKick(p, q, off, p') && n == |ConsoleWaiting(p, q, off)| && text == C.Payloads(p.m, ConsoleWaiting(p, q, off)))
    || (p'.last == p.last && p'.out == p.out && UsedIdx(p'.m, q) == UsedIdx(p.m, q) && n == 0 && text == [])
  }

  ghost predicate ConsoleRun(ps: seq<C.Progress>, q: Queue, off: u64, ns: seq<nat>, texts: seq<seq<u8>>) {
    && 0 < q.num && |ps| == |ns| + 1 && |texts| == |ns|
    && forall i :: 0 <= i < |ns| ==> ConsoleStep(ps[i], q, off, ps[i + 1], ns[i], texts[i])
  }

  function Concat(texts: seq<seq<u8>>): seq<u8> {
    if texts == [] then [] else Concat(texts[..|texts| - 1]) + texts[|texts| - 1]
  }

  lemma ConsoleStepCounts(p: C.Progress, q: Queue, off: u64, p': C.Progress, n: nat, text: seq<u8>)
    requires 0 < q.num && ConsoleStep(p, q, off, p', n, text)
    ensures UsedIdx(p'.m, q) == Advance(UsedIdx(p.m, q), n) && p'.last == Advance(p.last, n) && p'.out == p.out + text
  {
    if ConsoleKick(p, q, off, p') && n == |ConsoleWaiting(p, q, off)|
      && text == C.Payloads(p.m, ConsoleWaiting(p, q, off)) {
      var to := AvailIdx(p.m, q);
      C.DrainRefines(p, q, off, to, Dist(p.last, to), ConsoleWaiting(p, q, off));
      AdvanceDist(p.last, to);
    }
  }

  /**
   * Over any run the console prints exactly the payloads made available, in
   * order and once each, and both counters advance by the number of buffers.
   */
  lemma ConsoleRunBalanced(ps: seq<C.Progress>, q: Queue, off: u64, ns: seq<nat>, texts: seq<seq<u8>>)
    requires ConsoleRun(ps, q, off, ns, texts)
    ensures var s, e := ps[0], ps[|ns|];
      && e.out == s.out + Concat(texts)
      && UsedIdx(e.m, q) == Advance(UsedIdx(s.m, q), Sum(ns))
      && e.last == Advance(s.last, Sum(ns))
      && Dist(e.last, UsedIdx(e.m, q)) == Dist(s.last, UsedIdx(s.m, q))
  {
    var us := seq(|ps|, i requires 0 <= i < |ps| => UsedIdx(ps[i].m, q));
    var ls := seq(|ps|, i requires 0 <= i < |ps| => ps[i].last);
    var outs := seq(|ps|, i requires 0 <= i < |ps| => ps[i].out);
    forall i | 0 <= i < |ns|
      ensures us[i + 1] == Advance(us[i], ns[i]) && ls[i + 1] == Advance(ls[i], ns[i]) && outs[i + 1] == outs[i] + texts[i]
    {
      ConsoleStepCounts(ps[i], q, off, ps[i + 1], ns[i], texts[i]);
    }
    CounterRun(us, ns);
    CounterRun(ls, ns);
    OutputRun(outs, texts);
    DistKept(ls[0], us[0], Sum(ns));
  }

  lemma {:induction false} BufferPendingAt(m: Mem, q: Queue, off: u64, last: u16, n: nat, k: nat)
    requires 0 < q.num && k < n
    ensures C.Pending(m, q, off, last, n)[k] == C.Decode(m, q, off, Advance(last, k))
    ensures C.Completions(C.Pending(m, q, off, last, n))[k] == Completion(C.Decode(m, q, off, Advance(last, k)).head, 0)
    decreases n
  {
    var rest := C.Pending(m, q, off, Next16(last), n - 1);
    assert C.Pending(m, q, off, last, n)[1..] == rest;
    if k > 0 {
      BufferPendingAt(m, q, off, Next16(last), n - 1, k - 1);
    }
  }

  /** In bytes: the descriptor number in the ring entry of `avail` is in the used element of `used`, with length 0. */
  predicate PrintedAs(p: C.Progress, q: Queue, p': C.Progress, avail: u16, used: u16)
    requires 0 < q.num
  {
    var e := q.Used() + 4 + 8 * (used % q.num);
    Word(p'.m, e, 4) == Word(p.m, EntryAddr(q, avail), 2) && Word(p'.m, e + 4, 4) == 0
  }

  lemma ReturnedAs(p: C.Progress, q: Queue, off: u64, p': C.Progress, avail: u16, used: u16)
    requires q.LaidOut() && Holds(p'.m, q, used % q.num, Completion(C.Decode(p.m, q, off, avail).head, 0))
    ensures PrintedAs(p, q, p', avail, used)
  {
    HeadIs(p.m, q, avail);
    HoldsWords(p'.m, q, used % q.num, Completion(C.Decode(p.m, q, off, avail).head, 0));
  }

  lemma ConsoleKickServes(p: C.Progress, q: Queue, off: u64, p': C.Progress, k: nat, avail: u16, used: u16)
    requires 0 < q.num && ConsoleKick(p, q, off, p') && k < |ConsoleWaiting(p, q, off)|
    requires avail == Advance(p.last, k) && used == Advance(UsedIdx(p.m, q), k)
    ensures PrintedAs(p, q, p', avail, used)
  {
    var to, bs := AvailIdx(p.m, q), ConsoleWaiting(p, q, off);
    C.DrainRefines(p, q, off, to, Dist(p.last, to), bs);
    BufferPendingAt(p.m, q, off, p.last, |bs|, k);
    SlotsAt(UsedIdx(p.m, q), |bs|, q.num, k);
    AppendedHolds(p.m, p'.m, q, C.Completions(bs), k);
    ReturnedAs(p, q, off, p', avail, used);
  }

  lemma ConsoleStepServes(p: C.Progress, q: Queue, off: u64, p': C.Progress, n: nat, text: seq<u8>, before: nat, j: nat,
                          avail0: u16, used0: u16, avail: u16, used: u16)
    requires 0 < q.num && ConsoleStep(p, q, off, p', n, text) && before <= j < before + n
    requires p.last == Advance(avail0, before) && UsedIdx(p.m, q) == Advance(used0, before)
    requires avail == Advance(avail0, j) && used == Advance(used0, j)
    ensures PrintedAs(p, q, p', avail, used)
  {
    ConsoleStepIsKick(p, q, off, p', n, text);
    var k := j - before;
    AdvanceRest(avail0, before, p.last, k, j, avail);
    AdvanceRest(used0, before, UsedIdx(p.m, q), k, j, used);
    ConsoleKickServes(p, q, off, p', k, avail, used);
  }

  lemma ConsoleStepIsKick(p: C.Progress, q: Queue, off: u64, p': C.Progress, n: nat, text: seq<u8>)
    requires 0 < q.num && 0 < n && ConsoleStep(p, q, off, p', n, text)
    ensures ConsoleKick(p, q, off, p') && n == |ConsoleWaiting(p, q, off)|
  {
  }

  lemma ConsolePrefixCounts(ps: seq<C.Progress>, q: Queue, off: u64, ns: seq<nat>, texts: seq<seq<u8>>, i: nat)
    requires ConsoleRun(ps, q, off, ns, texts) && i < |ns|
    ensures ps[i].last == Advance(ps[0].last, Sum(ns[..i]))
    ensures UsedIdx(ps[i].m, q) == Advance(UsedIdx(ps[0].m, q), Sum(ns[..i]))
  {
    ConsoleRunBalanced(ps[..i + 1], q, off, ns[..i], texts[..i]);
  }

  /** Exactly once, as for the block device: the j-th buffer taken in a run is returned under the j-th used counter. */
  lemma ConsoleRunExactlyOnce(ps: seq<C.Progress>, q: Queue, off: u64, ns: seq<nat>, texts: seq<seq<u8>>, i: nat, j: nat,
                              avail: u16, used: u16)
    requires ConsoleRun(ps, q, off, ns, texts) && i < |ns| && Sum(ns[..i]) <= j < Sum(ns[..i]) + ns[i]
    requires avail == Advance(ps[0].last, j) && used == Advance(UsedIdx(ps[0].m, q), j)
    ensures PrintedAs(ps[i], q, ps[i + 1], avail, used)
  {
    var p, p', before := ps[i], ps[i + 1], Sum(ns[..i]);
    assert ConsoleStep(p, q, off, p', ns[i], texts[i]);
    ConsolePrefixCounts(ps, q, off, ns, texts, i);
    ConsoleStepServes(p, q, off, p', ns[i], texts[i], before, j, ps[0].last, UsedIdx(ps[0].m, q), avail, used);
  }

  lemma {:induction false} OutputRun(outs: seq<seq<u8>>, texts: seq<seq<u8>>)
    requires |outs| == |texts| + 1 && forall i :: 0 <= i < |texts| ==> outs[i + 1] == outs[i] + texts[i]
    ensures outs[|texts|] == outs[0] + Concat(texts)
    decreases |texts|
  {
    if texts != [] {
      var k := |texts| - 1;
      OutputRun(outs[..k + 1], texts[..k]);
      C.Regroup(outs[0], Concat(texts[..k]), texts[k]);
    }
  }
}
