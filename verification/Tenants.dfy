/**
 * Two tenants on one machine. Each has its own stage-2 table, host block,
 * console and disk; guest stores go through the table in memory, device
 * accesses through the offset. Any interleaving of their actions looks, to each
 * of them, as if it had run alone.
 */
module Tenants {
  import opened Words
  import opened HostMemory
  import opened Stage2
  import opened DeviceLocality
  import B = BlockSpec
  import C = ConsoleSpec
  import D = VirtioDevices

  /** Where the two VMs are placed: table address, host block and guest block of each. */
  datatype Placement = Placement(tb: seq<u64>, pa: seq<u64>, ipa: u64) {
    predicate Valid() {
      && |tb| == 2 && |pa| == 2
      && ipa < IPA_LIMIT && ipa % GIB == 0
      && (forall v :: 0 <= v < 2 ==> pa[v] < PA_LIMIT && pa[v] % GIB == 0 && TablePlace(tb[v]))
      && pa[0] != pa[1]
      && (forall v, w :: 0 <= v < 2 && 0 <= w < 2 ==> Apart(tb[v], pa[w]))
    }

    /** The offset the devices of VM v are configured with. */
    function Offset(v: int): u64
      requires Valid() && 0 <= v < 2
    {
      Wrap(pa[v] - ipa)
    }
  }

  /** A table does not overlap a host block. */
  predicate Apart(tb: u64, pa: u64) { tb + 8 * ENTRIES <= pa || pa + GIB <= tb }

  /** What a tenant owns besides its RAM. */
  datatype Vm = Vm(con: C.Con, blk: B.Blk, out: seq<u8>)

  datatype System = System(m: Mem, vms: seq<Vm>)

  /** What a tenant can make happen. */
  datatype Action =
    | Store(ipa: u64, byte: u8)         // a guest store
    | ConsoleReg(off: int, val: u32)    // a write to a console register other than QueueNotify
    | BlockReg(off: int, val: u32)
    | ConsoleKick                       // QueueNotify
    | BlockKick

  datatype Event = Event(vm: int, act: Action)

  ghost predicate Inv(p: Placement, s: System)
  {
    && p.Valid() && |s.vms| == 2
    && (forall v :: 0 <= v < 2 ==> TableAt(s.m, p.tb[v]) == VmTable(p.ipa, p.pa[v]))
    && (forall v :: 0 <= v < 2 ==> s.vms[v].con.hostOff == p.Offset(v) && s.vms[v].blk.hostOff == p.Offset(v))
  }

  /** The code has a defined effect: no request that would index outside the disk array is pending. */
  predicate Defined(s: System, e: Event) {
    |s.vms| == 2 && 0 <= e.vm < 2 && (e.act.BlockKick? ==> B.NotifySafe(s.vms[e.vm].blk, s.m))
  }

  /**
   * The queue and buffer addresses a notification touches lie in the tenant's own
   * block. The devices do not check this; GuestRules has what a guest must do for it.
   */
  ghost predicate Allowed(p: Placement, s: System, e: Event)
    requires Inv(p, s)
  {
    && Defined(s, e)
    && match e.act
       case ConsoleKick => ConsoleInside(s.vms[e.vm].con, s.m, s.vms[e.vm].out, p.pa[e.vm])
       case BlockKick => BlockInside(s.vms[e.vm].blk, s.m, p.pa[e.vm])
       case _ => true
  }

  /** A guest store reaches the host address the walk of the VM's table gives, or traps. */
  function StoreThrough(m: Mem, tb: u64, ipa: u64, val: u8): Mem {
    match Walk(TableAt(m, tb), ipa)
    case None => m
    case Some(pa) => m[pa := val]
  }

  function Act(m: Mem, vm: Vm, tb: u64, a: Action): (Mem, Vm)
    requires a.BlockKick? ==> B.NotifySafe(vm.blk, m)
  {
    match a
    case Store(ipa, val) => (StoreThrough(m, tb, ipa, val), vm)
    case ConsoleReg(off, val) => (m, vm.(con := D.ConsoleWrite(vm.con, off, val)))
    case BlockReg(off, val) => (m, vm.(blk := D.BlockWrite(vm.blk, off, val)))
    case ConsoleKick =>
      var o := C.Notify(vm.con, m, vm.out);
      (o.m, vm.(con := o.c, out := o.out))
    case BlockKick =>
      var o := B.Notify(vm.blk, m);
      (o.m, vm.(blk := o.b))
  }

  function Step(p: Placement, s: System, e: Event): (r: System)
    requires p.Valid() && Defined(s, e)
    ensures |r.vms| == 2
  {
    var (m, vm) := Act(s.m, s.vms[e.vm], p.tb[e.vm], e.act);
    System(m, s.vms[e.vm := vm])
  }

  /** Two states look the same to VM v: same RAM block, same devices, same disk, same output. */
  ghost predicate SameView(p: Placement, s: System, t: System, v: int)
    requires p.Valid() && 0 <= v < 2 && |s.vms| == 2 && |t.vms| == 2
  {
    Alike(s.m, t.m, p.pa[v]) && s.vms[v] == t.vms[v]
  }

  /** A tenant's action depends on its own view and changes its own block only. */
  lemma ActLocal(p: Placement, s: System, t: System, e: Event)
    requires Inv(p, s) && Inv(p, t) && Allowed(p, s, e) && SameView(p, s, t, e.vm)
    ensures Allowed(p, t, e)
    ensures SameView(p, Step(p, s, e), Step(p, t, e), e.vm)
    ensures Confined(s.m, Step(p, s, e).m, p.pa[e.vm])
  {
    var v := e.vm;
    match e.act {
      case Store(ipa, val) =>
        VmWalk(p.ipa, p.pa[v], ipa);
      case ConsoleReg(_, _) =>
      case BlockReg(_, _) =>
      case ConsoleKick =>
        ConsoleLocal(s.vms[v].con, s.m, t.m, s.vms[v].out, p.pa[v]);
      case BlockKick =>
        BlockLocal(s.vms[v].blk, s.m, t.m, p.pa[v]);
    }
  }

  lemma OffsetsKept(p: Placement, s: System, e: Event)
    requires Inv(p, s) && Allowed(p, s, e)
    ensures Step(p, s, e).vms[e.vm].con.hostOff == s.vms[e.vm].con.hostOff
    ensures Step(p, s, e).vms[e.vm].blk.hostOff == s.vms[e.vm].blk.hostOff
  {
    if e.act.BlockKick? {
      B.NotifyKeepsOffset(s.vms[e.vm].blk, s.m);
    }
  }

  /** No action of either tenant changes either table, or anything else outside the actor's block. */
  lemma InvKept(p: Placement, s: System, e: Event)
    requires Inv(p, s) && Allowed(p, s, e)
    ensures Inv(p, Step(p, s, e))
  {
    ActLocal(p, s, s, e);
    OffsetsKept(p, s, e);
    var s' := Step(p, s, e);
    forall v | 0 <= v < 2 ensures TableAt(s'.m, p.tb[v]) == TableAt(s.m, p.tb[v]) {
      assert Apart(p.tb[v], p.pa[e.vm]);
      TableSame(s.m, s'.m, p.tb[v]);
    }
  }

  /** A guest store changes exactly the host byte its address stands for in the VM's block, or traps and changes nothing. */
  lemma StoreReaches(p: Placement, s: System, v: int, ipa: u64, val: u8, x: u64)
    requires Inv(p, s) && 0 <= v < 2
    ensures Step(p, s, Event(v, Store(ipa, val))).m[x] ==
      if p.ipa <= ipa < p.ipa + GIB && x == p.pa[v] + (ipa - p.ipa) then val else s.m[x]
    ensures Step(p, s, Event(v, Store(ipa, val))).vms == s.vms
  {
    VmWalk(p.ipa, p.pa[v], ipa);
  }

  /** A register write configures the writer's own device: here, where its queue lies. */
  lemma RegisterReaches(p: Placement, s: System, v: int, val: u32)
    requires Inv(p, s) && 0 <= v < 2
    ensures var s' := Step(p, s, Event(v, BlockReg(0x40, val)));
      s'.m == s.m && s'.vms[1 - v] == s.vms[1 - v] && s'.vms[v].con == s.vms[v].con && s'.vms[v].blk.queuePfn == val
    ensures var s' := Step(p, s, Event(v, ConsoleReg(0x40, val)));
      s'.m == s.m && s'.vms[1 - v] == s.vms[1 - v] && s'.vms[v].blk == s.vms[v].blk && s'.vms[v].con.queuePfn == val
  {
  }

  /** The other tenant notices nothing. */
  lemma OtherUnchanged(p: Placement, s: System, e: Event, w: int)
    requires Inv(p, s) && Allowed(p, s, e) && 0 <= w < 2 && w != e.vm
    ensures SameView(p, s, Step(p, s, e), w)
  {
    var s' := Step(p, s, e);
    assert Confined(s.m, s'.m, p.pa[e.vm]) by {
      ActLocal(p, s, s, e);
    }
    BlocksApart(p.pa[w], p.pa[e.vm]);
    ConfinedElsewhere(s.m, s'.m, p.pa[e.vm], p.pa[w]);
    OtherVm(p, s, e, w);
  }

  lemma OtherVm(p: Placement, s: System, e: Event, w: int)
    requires p.Valid() && Defined(s, e) && 0 <= w < 2 && w != e.vm
    ensures Step(p, s, e).vms[w] == s.vms[w]
  {
  }

  lemma BlocksApart(pa: int, pa': int)
    requires pa % GIB == 0 && pa' % GIB == 0 && pa != pa'
    ensures pa + GIB <= pa' || pa' + GIB <= pa
  {
  }

  lemma ConfinedElsewhere(m: Mem, m': Mem, lo: int, other: int)
    requires BlockPlace(lo) && BlockPlace(other) && Confined(m, m', lo) && (other + GIB <= lo || lo + GIB <= other)
    ensures Alike(m, m', other)
  {
  }

  // ---- whole runs ----

  predicate RunDefined(p: Placement, s: System, es: seq<Event>)
    requires p.Valid()
    decreases es
  {
    es != [] ==> Defined(s, es[0]) && RunDefined(p, Step(p, s, es[0]), es[1..])
  }

  /** The state after a run. */
  function Run(p: Placement, s: System, es: seq<Event>): (r: System)
    requires p.Valid() && RunDefined(p, s, es)
    ensures |s.vms| == 2 ==> |r.vms| == 2
    decreases es
  {
    if es == [] then s else Run(p, Step(p, s, es[0]), es[1..])
  }

  ghost predicate RunAllowed(p: Placement, s: System, es: seq<Event>): (ok: bool)
    requires Inv(p, s)
    ensures ok ==> RunDefined(p, s, es)
    decreases es
  {
    es != [] ==>
      && Allowed(p, s, es[0])
      && (InvKept(p, s, es[0]); RunAllowed(p, Step(p, s, es[0]), es[1..]))
  }

  /** Both tables in memory stay exactly as built, and the offsets as set, throughout an allowed run. */
  lemma {:induction false} RunKeepsTables(p: Placement, s: System, es: seq<Event>)
    requires Inv(p, s) && RunAllowed(p, s, es)
    ensures Inv(p, Run(p, s, es))
    decreases es
  {
    if es != [] {
      InvKept(p, s, es[0]);
      RunKeepsTables(p, Step(p, s, es[0]), es[1..]);
    }
  }

  function Own(es: seq<Event>, v: int): seq<Event> {
    if es == [] then [] else (if es[0].vm == v then [es[0]] else []) + Own(es[1..], v)
  }

  /**
   * Noninterference: after any interleaving, each tenant's RAM, device state,
   * disk and console output are those of running its own actions alone.
   */
  lemma {:induction false} RunsAlone(p: Placement, s: System, t: System, es: seq<Event>, v: int)
    requires Inv(p, s) && Inv(p, t) && RunAllowed(p, s, es) && 0 <= v < 2 && SameView(p, s, t, v)
    ensures RunAllowed(p, t, Own(es, v))
    ensures SameView(p, Run(p, s, es), Run(p, t, Own(es, v)), v)
    decreases es
  {
    if es != [] {
      var e := es[0];
      InvKept(p, s, e);
      if e.vm == v {
        ActLocal(p, s, t, e);
        InvKept(p, t, e);
        RunsAlone(p, Step(p, s, e), Step(p, t, e), es[1..], v);
        assert Own(es, v)[1..] == Own(es[1..], v);
      } else {
        OtherUnchanged(p, s, e, v);
        RunsAlone(p, Step(p, s, e), t, es[1..], v);
        assert Own(es, v) == Own(es[1..], v);
      }
    }
  }

  /**
   * The hypothesis is about each tenant by itself: if each tenant, running its own
   * actions alone, keeps to its block, then every interleaving of the two is allowed,
   * and each ends up with what it had alone.
   */
  lemma {:induction false} AloneSuffices(p: Placement, s: System, t: System, t': System, es: seq<Event>)
    requires Inv(p, s) && Inv(p, t) && Inv(p, t') && SameView(p, s, t, 0) && SameView(p, s, t', 1)
    requires RunAllowed(p, t, Own(es, 0)) && RunAllowed(p, t', Own(es, 1)) && forall e :: e in es ==> 0 <= e.vm < 2
    ensures RunAllowed(p, s, es)
    decreases es
  {
    if es != [] {
      var e := es[0];
      assert e in es;
      if e.vm == 0 {
        assert Own(es, 0)[1..] == Own(es[1..], 0) && Own(es, 1) == Own(es[1..], 1);
        OwnStep(p, s, t, e, 1);
        InvKept(p, t, e);
        AloneSuffices(p, Step(p, s, e), Step(p, t, e), t', es[1..]);
      } else {
        assert Own(es, 1)[1..] == Own(es[1..], 1) && Own(es, 0) == Own(es[1..], 0);
        OwnStep(p, s, t', e, 0);
        InvKept(p, t', e);
        AloneSuffices(p, Step(p, s, e), t, Step(p, t', e), es[1..]);
      }
    }
  }

  /** An action allowed where the actor is alone (t) is allowed here (s), does the same for it, and leaves w's view. */
  lemma OwnStep(p: Placement, s: System, t: System, e: Event, w: int)
    requires Inv(p, s) && Inv(p, t) && Allowed(p, t, e) && SameView(p, s, t, e.vm) && 0 <= w < 2 && w != e.vm
    ensures Allowed(p, s, e) && Inv(p, Step(p, s, e))
    ensures SameView(p, Step(p, s, e), Step(p, t, e), e.vm) && SameView(p, s, Step(p, s, e), w)
  {
    ActLocal(p, t, s, e);
    InvKept(p, s, e);
    OtherUnchanged(p, s, e, w);
  }

  /**
   * Memory isolation at the end of any run: no host address is reachable from
   * both tables, and a guest address outside the VM's block traps.
   */
  lemma RunIsolated(p: Placement, s: System, es: seq<Event>, a: u64, a': u64)
    requires Inv(p, s) && RunAllowed(p, s, es)
    ensures var m := Run(p, s, es).m; Isolated(p, Walk(TableAt(m, p.tb[0]), a), Walk(TableAt(m, p.tb[1]), a'), a, a')
  {
    RunKeepsTables(p, s, es);
    TablesIsolate(p, a, a');
  }

  /** What the walks w of a in VM 0 and w' of a' in VM 1 must satisfy. */
  predicate Isolated(p: Placement, w: Option<u64>, w': Option<u64>, a: u64, a': u64)
    requires p.Valid()
  {
    && (w.Some? && w'.Some? ==> w.value != w'.value)
    && (w.Some? <==> p.ipa <= a < p.ipa + GIB) && (w.Some? ==> p.pa[0] <= w.value < p.pa[0] + GIB)
    && (w'.Some? <==> p.ipa <= a' < p.ipa + GIB) && (w'.Some? ==> p.pa[1] <= w'.value < p.pa[1] + GIB)
  }

  lemma TablesIsolate(p: Placement, a: u64, a': u64)
    requires p.Valid()
    ensures Isolated(p, Walk(VmTable(p.ipa, p.pa[0]), a), Walk(VmTable(p.ipa, p.pa[1]), a'), a, a')
  {
    VmsDisjoint(p.ipa, p.pa[0], p.ipa, p.pa[1], a, a');
    VmWalk(p.ipa, p.pa[0], a);
    VmWalk(p.ipa, p.pa[1], a');
  }
}
