/**
 * The multi-tenant run loops: a physical timer tick is latched for both tenants,
 * switches between them, and is handed to a tenant when it next runs with its
 * timer interrupt enabled. One loop body serves the demos, which differ in their policy.
 */
module TickLoops {
  import opened Words
  import Bits
  import opened VgicSpec
  import opened ListRegisters

  /**
   * Swap: both tenants use INTID 27 and alternate (M18, M29, M30).
   * Weighted: INTIDs 30 and 27, three of four slices to VM 0 (M19).
   * Dropping: the same weights, but a latched tick is cleared whether or not it could be delivered (M21).
   */
  datatype Policy = Swap | Weighted | Dropping

  /** An interrupt placed for a VM, after the first `at` register writes of the run. */
  datatype Grant = Grant(vm: int, intid: int, at: nat)

  /**
   * The loop's variables, and what happened so far: ticks seen, ticks handed out,
   * slices given to VM 1, the guests' GIC register writes, the interrupts placed.
   */
  datatype Tenancy = Tenancy(bank: Bank, pend: seq<bool>, cur: int, slot: nat, lr: seq<Lrs>,
                             seen: nat, handed: seq<nat>, toSecond: nat, writes: Trace, grants: seq<Grant>)

  predicate Shaped(t: Tenancy) { |t.pend| == 2 && |t.lr| == 2 && |t.handed| == 2 && 0 <= t.cur < 2 }

  function Start(): Tenancy {
    Tenancy(ResetBank(), [false, false], 0, 0, [[0, 0, 0, 0], [0, 0, 0, 0]], 0, [0, 0], 0, [], [])
  }

  /** GicStore: a 32- or 64-bit store to the emulated GIC, made for VM `vm`. */
  datatype Exit = Timer | GicStore(vm: int, ipa: u64, wide: bool, val: u64) | Other

  predicate GoodExit(e: Exit) { e.GicStore? ==> 0 <= e.vm < MAX_VCPUS && Contains(e.ipa) }

  /** What happens while a VM runs, and how it comes back. */
  datatype Slice = Slice(acks: seq<int>, exit: Exit)

  predicate GoodSlice(s: Slice) { |s.acks| == 4 && GoodExit(s.exit) }

  /** The interrupt a tick is delivered as to VM v, if the VM has enabled one. */
  function Deliverable(p: Policy, bank: Bank, v: int): (id: int)
    requires 0 <= v < 2
    ensures id == -1 || ((id == 27 || id == 30) && IrqEnabled(bank, v, id))
  {
    match p
    case Swap => if IrqEnabled(bank, v, 27) then 27 else -1
    case Weighted => var id := if v == 0 then 30 else 27; if IrqEnabled(bank, v, id) then id else -1
    case Dropping => if IrqEnabled(bank, v, 30) then 30 else if IrqEnabled(bank, v, 27) then 27 else -1
  }

  /** vgic_inject of id for the current VM. */
  function WithGrant(t: Tenancy, id: u32): (r: Tenancy)
    requires Shaped(t)
    ensures Shaped(r)
  {
    t.(lr := t.lr[t.cur := Inject(t.lr[t.cur], id)], handed := t.handed[t.cur := t.handed[t.cur] + 1],
       grants := t.grants + [Grant(t.cur, id, |t.writes|)])
  }

  /** And the latch is cleared. */
  function HandedOver(t: Tenancy, id: u32): (r: Tenancy)
    requires Shaped(t)
    ensures Shaped(r)
  {
    WithGrant(t, id).(pend := t.pend[t.cur := false])
  }

  /** The top of the loop body. */
  function Delivered(p: Policy, t: Tenancy): (r: Tenancy)
    requires Shaped(t)
    ensures Shaped(r)
  {
    if !t.pend[t.cur] then t
    else
      var id := Deliverable(p, t.bank, t.cur);
      if id >= 0 then HandedOver(t, id)
      else if p.Dropping? then t.(pend := t.pend[t.cur := false])
      else t
  }

  function GuestRan(t: Tenancy, acks: seq<int>): (r: Tenancy)
    requires Shaped(t) && |acks| == 4
    ensures Shaped(r)
  {
    t.(lr := t.lr[t.cur := WhileGuestRuns(t.lr[t.cur], acks)])
  }

  /** The bottom of the loop body. */
  function Handled(p: Policy, t: Tenancy, e: Exit): (r: Tenancy)
    requires Shaped(t) && GoodExit(e)
    ensures Shaped(r)
  {
    match e
    case Timer =>
      var t' := t.(seen := t.seen + 1, pend := [true, true]);
      if p.Swap? then t'.(cur := 1 - t.cur)
      else
        var next := if (t.slot + 1) % 4 == 0 then 1 else 0;
        t'.(slot := t.slot + 1, cur := next, toSecond := t.toSecond + next)
    case GicStore(vm, ipa, wide, val) =>
      var ws := AccessWords(vm, ipa, wide, val);
      t.(bank := After(t.bank, ws), writes := t.writes + ws)
    case Other => t
  }

  function Pass(p: Policy, t: Tenancy, s: Slice): (r: Tenancy)
    requires Shaped(t) && GoodSlice(s)
    ensures Shaped(r)
  {
    Handled(p, GuestRan(Delivered(p, t), s.acks), s.exit)
  }

  function PassAll(p: Policy, t: Tenancy, ss: seq<Slice>): (r: Tenancy)
    requires Shaped(t) && forall s :: s in ss ==> GoodSlice(s)
    ensures Shaped(r)
  {
    if ss == [] then t
    else
      assert GoodSlice(ss[|ss| - 1]);
      Pass(p, PassAll(p, t, ss[..|ss| - 1]), ss[|ss| - 1])
  }

  // ---- what every run keeps ----

  /** Ticks handed to a VM, plus the one latched for it, never exceed the ticks seen. */
  ghost predicate Accounted(t: Tenancy)
    requires Shaped(t)
  {
    forall v :: 0 <= v < 2 ==> t.handed[v] + (if t.pend[v] then 1 else 0) <= t.seen
  }

  /** The register file is what the guests' writes have made of it. */
  ghost predicate BankWritten(t: Tenancy) { t.bank == After(ResetBank(), t.writes) }

  /** When it was placed, the latest write to have touched the interrupt's enable bit was a set. */
  predicate Gated(writes: Trace, g: Grant) {
    && (g.intid == 27 || g.intid == 30) && 0 <= g.vm < 2 && g.at <= |writes|
    && LastTouch(writes[..g.at], Private(g.vm, g.intid), false)
  }

  /** Every interrupt placed was gated so, and one was placed per tick handed out. */
  ghost predicate GrantsGated(t: Tenancy)
    requires Shaped(t)
  {
    (forall g :: g in t.grants ==> Gated(t.writes, g)) && |t.grants| == t.handed[0] + t.handed[1]
  }

  /** The interrupts placed for VM v. */
  function Granted(grants: seq<Grant>, v: int): set<int> { set g | g in grants && g.vm == v :: g.intid }

  lemma GrantedSnoc(grants: seq<Grant>, g: Grant, v: int)
    ensures Granted(grants + [g], v) == Granted(grants, v) + if g.vm == v then {g.intid} else {}
  {
  }

  /** The tick count says who runs: alternately, or VM 1 at every fourth tick. */
  ghost predicate Shared(p: Policy, t: Tenancy) {
    && (p.Swap? ==> t.cur == t.seen % 2)
    && (!p.Swap? ==> t.slot == t.seen && t.toSecond == Selections(t.slot) && (t.cur == 1 <==> t.slot > 0 && t.slot % 4 == 0))
  }

  ghost predicate Inv(p: Policy, t: Tenancy) {
    && Shaped(t) && Accounted(t) && BankWritten(t) && GrantsGated(t) && Shared(p, t)
    && forall v :: 0 <= v < 2 ==> Unique(t.lr[v]) && Within(t.lr[v], Granted(t.grants, v))
  }

  /** An interrupt the loop finds enabled has been set by the guests' writes. */
  lemma EnabledIsGated(t: Tenancy, id: u32)
    requires Shaped(t) && BankWritten(t) && (id == 27 || id == 30) && IrqEnabled(t.bank, t.cur, id)
    ensures Gated(t.writes, Grant(t.cur, id, |t.writes|))
  {
    EnabledSinceReset(t.writes, Private(t.cur, id));
    assert t.writes[..|t.writes|] == t.writes;
  }

  lemma HandOverBooks(t: Tenancy, id: u32)
    requires Shaped(t) && Accounted(t) && GrantsGated(t) && t.pend[t.cur] && Gated(t.writes, Grant(t.cur, id, |t.writes|))
    ensures Accounted(HandedOver(t, id)) && GrantsGated(HandedOver(t, id))
  {
  }

  lemma HandOverRegisters(t: Tenancy, id: u32, v: int)
    requires Shaped(t) && 0 <= v < 2 && Unique(t.lr[v]) && Within(t.lr[v], Granted(t.grants, v))
    ensures var t' := HandedOver(t, id); Unique(t'.lr[v]) && Within(t'.lr[v], Granted(t'.grants, v))
  {
    var g := Grant(t.cur, id, |t.writes|);
    GrantedSnoc(t.grants, g, v);
    if v == t.cur {
      InjectEffect(t.lr[v], id);
      InjectWithin(t.lr[v], id, Granted(t.grants, v), Granted(t.grants + [g], v));
    }
  }

  /** Handing the latched tick over keeps the books. */
  lemma HandOverKeeps(p: Policy, t: Tenancy, id: u32)
    requires Inv(p, t) && t.pend[t.cur] && (id == 27 || id == 30) && IrqEnabled(t.bank, t.cur, id)
    ensures Inv(p, HandedOver(t, id))
  {
    EnabledIsGated(t, id);
    HandOverBooks(t, id);
    HandOverRegisters(t, id, 0);
    HandOverRegisters(t, id, 1);
  }

  lemma DeliveredKeeps(p: Policy, t: Tenancy)
    requires Inv(p, t)
    ensures Inv(p, Delivered(p, t))
  {
    var id := Deliverable(p, t.bank, t.cur);
    if t.pend[t.cur] && id >= 0 {
      HandOverKeeps(p, t, id);
    }
  }

  lemma GuestRanKeeps(p: Policy, t: Tenancy, acks: seq<int>)
    requires Inv(p, t) && |acks| == 4
    ensures Inv(p, GuestRan(t, acks))
  {
    GuestKeepsUnique(t.lr[t.cur], acks);
    GuestWithin(t.lr[t.cur], acks, Granted(t.grants, t.cur));
  }

  lemma GatedStays(writes: Trace, more: Trace, g: Grant)
    requires Gated(writes, g)
    ensures (forall w :: w in writes + more ==> GoodWrite(w)) && Gated(writes + more, g)
  {
    assert (writes + more)[..g.at] == writes[..g.at];
  }

  lemma HandledKeeps(p: Policy, t: Tenancy, e: Exit)
    requires Inv(p, t) && GoodExit(e)
    ensures Inv(p, Handled(p, t, e))
  {
    if e.GicStore? {
      var ws := AccessWords(e.vm, e.ipa, e.wide, e.val);
      AfterConcat(ResetBank(), t.writes, ws, t.writes + ws);
      forall g | g in t.grants ensures Gated(t.writes + ws, g) {
        GatedStays(t.writes, ws, g);
      }
    }
  }

  /**
   * Tick accounting, gating, shares and list registers, in every run of every policy. In
   * particular every interrupt a VM finds in its list registers was placed for it, at a
   * moment when the latest GIC write to have touched its enable bit had set it.
   */
  lemma {:induction false} RunKeeps(p: Policy, ss: seq<Slice>)
    requires forall s :: s in ss ==> GoodSlice(s)
    ensures Inv(p, PassAll(p, Start(), ss))
    decreases |ss|
  {
    if ss != [] {
      assert GoodSlice(ss[|ss| - 1]);
      RunKeeps(p, ss[..|ss| - 1]);
      PassKeeps(p, PassAll(p, Start(), ss[..|ss| - 1]), ss[|ss| - 1]);
    } else {
      StartOk(p);
    }
  }

  lemma StartOk(p: Policy)
    ensures Inv(p, Start())
  {
    IdleOk(Granted([], 0));
    IdleOk(Granted([], 1));
  }

  lemma PassKeeps(p: Policy, t: Tenancy, s: Slice)
    requires Inv(p, t) && GoodSlice(s)
    ensures Inv(p, Pass(p, t, s))
  {
    var t1 := Delivered(p, t);
    DeliveredKeeps(p, t);
    var t2 := GuestRan(t1, s.acks);
    GuestRanKeeps(p, t1, s.acks);
    HandledKeeps(p, t2, s.exit);
  }

  /** VM v is about to run with its interrupt enabled. */
  predicate Ripe(p: Policy, t: Tenancy, v: int)
    requires Shaped(t) && 0 <= v < 2
  {
    t.cur == v && Deliverable(p, t.bank, v) >= 0
  }

  /** In the run from t, VM v never starts a pass with its interrupt enabled. */
  predicate NeverRipe(p: Policy, t: Tenancy, ss: seq<Slice>, v: int)
    requires Shaped(t) && 0 <= v < 2 && forall s :: s in ss ==> GoodSlice(s)
  {
    ss == [] || (NeverRipe(p, t, ss[..|ss| - 1], v) && !Ripe(p, PassAll(p, t, ss[..|ss| - 1]), v))
  }

  lemma PassLatch(p: Policy, t: Tenancy, s: Slice, v: int)
    requires Shaped(t) && GoodSlice(s) && 0 <= v < 2 && !p.Dropping?
    ensures var t' := Pass(p, t, s);
      && t'.handed[v] == t.handed[v] + (if t.pend[v] && Ripe(p, t, v) then 1 else 0)
      && (t.pend[v] && !Ripe(p, t, v) ==> t'.pend[v])
  {
  }

  /**
   * Under a latching policy a latched tick stays latched, over any run, for as long as
   * its VM does not start a pass with the interrupt enabled; and it is handed over
   * exactly when the VM does.
   */
  lemma {:induction false} LatchPersists(p: Policy, t: Tenancy, ss: seq<Slice>, v: int)
    requires Shaped(t) && (forall s :: s in ss ==> GoodSlice(s)) && 0 <= v < 2 && t.pend[v] && !p.Dropping?
    ensures NeverRipe(p, t, ss, v) ==> PassAll(p, t, ss).pend[v]
    ensures NeverRipe(p, t, ss, v) <==> PassAll(p, t, ss).handed[v] == t.handed[v]
    ensures PassAll(p, t, ss).handed[v] >= t.handed[v]
    decreases |ss|
  {
    if ss != [] {
      assert GoodSlice(ss[|ss| - 1]);
      LatchPersists(p, t, ss[..|ss| - 1], v);
      PassLatch(p, PassAll(p, t, ss[..|ss| - 1]), ss[|ss| - 1], v);
    }
  }

  /** When it is given up under a latching policy, it has been handed over: queued for the VM, unless four other interrupts are. */
  lemma LatchHandedOver(p: Policy, t: Tenancy)
    requires Shaped(t) && t.pend[t.cur] && !Delivered(p, t).pend[t.cur] && !p.Dropping?
    ensures var l := t.lr[t.cur];
            Queued(Delivered(p, t).lr[t.cur], Deliverable(p, t.bank, t.cur)) || AllBusy(l)
    ensures Delivered(p, t).handed[t.cur] == t.handed[t.cur] + 1
  {
    InjectEffect(t.lr[t.cur], Deliverable(p, t.bank, t.cur));
  }

  /** Every tick is latched for both VMs, whatever was latched before. */
  lemma TickLatches(p: Policy, t: Tenancy, s: Slice)
    requires Shaped(t) && GoodSlice(s) && s.exit.Timer?
    ensures Pass(p, t, s).pend[0] && Pass(p, t, s).pend[1] && Pass(p, t, s).seen == t.seen + 1
  {
  }

  /** The VM's own register writes have enabled the private interrupt. */
  predicate On(t: Tenancy, v: int, id: int)
    requires 0 <= v < 2 && 0 <= id < 32
  {
    LastTouch(t.writes, Private(v, id), false)
  }

  /** A latched tick is handed to the VM as this interrupt. */
  predicate HandedAs(p: Policy, t: Tenancy, id: u32)
    requires Shaped(t)
  {
    var l, t' := t.lr[t.cur], Delivered(p, t);
    (Queued(t'.lr[t.cur], id) || AllBusy(t'.lr[t.cur])) && (!Queued(l, id) && !AllBusy(l) ==> t'.lr[t.cur] != l) && !t'.pend[t.cur]
  }

  /**
   * As what a latched tick reaches the VM about to run, in any state of any run: INTID 27
   * under the alternating policy; 30 for VM 0 and 27 for VM 1 under the weighted one; 30,
   * or else 27, under the dropping one; each if the VM's writes have enabled it, and
   * otherwise its registers stay as they are.
   */
  lemma TickHandedAs(p: Policy, t: Tenancy)
    requires Inv(p, t) && t.pend[t.cur]
    ensures p.Swap? ==> if On(t, t.cur, 27) then HandedAs(p, t, 27) else Delivered(p, t).lr == t.lr
    ensures p.Weighted? && t.cur == 0 ==> if On(t, 0, 30) then HandedAs(p, t, 30) else Delivered(p, t).lr == t.lr
    ensures p.Weighted? && t.cur == 1 ==> if On(t, 1, 27) then HandedAs(p, t, 27) else Delivered(p, t).lr == t.lr
    ensures p.Dropping? ==> if On(t, t.cur, 30) then HandedAs(p, t, 30)
                            else if On(t, t.cur, 27) then HandedAs(p, t, 27) else Delivered(p, t).lr == t.lr
  {
    EnabledSinceReset(t.writes, Private(t.cur, 30));
    EnabledSinceReset(t.writes, Private(t.cur, 27));
    InjectEffect(t.lr[t.cur], 30);
    InjectEffect(t.lr[t.cur], 27);
    var id := Deliverable(p, t.bank, t.cur);
    if id >= 0 {
      HandOverRegister(t, id);
    }
  }

  lemma HandOverRegister(t: Tenancy, id: u32)
    requires Shaped(t)
    ensures HandedOver(t, id).lr == t.lr[t.cur := Inject(t.lr[t.cur], id)] && !HandedOver(t, id).pend[t.cur]
  {
  }

  /** The dropping loop gives up a latched tick whenever its VM runs, and loses it exactly when the VM has nothing enabled. */
  lemma DroppingExact(t: Tenancy)
    requires Shaped(t) && t.pend[t.cur]
    ensures !Delivered(Dropping, t).pend[t.cur]
    ensures Delivered(Dropping, t).handed[t.cur] == t.handed[t.cur] <==> Deliverable(Dropping, t.bank, t.cur) < 0
  {
  }

  /** One tick, then one pass: VM 0's tick is gone without having been handed over. A latching loop still has it. */
  lemma DroppingLoses()
    ensures var ss := [Slice([0, 0, 0, 0], Timer), Slice([0, 0, 0, 0], Other)];
      var t, t' := PassAll(Dropping, Start(), ss), PassAll(Weighted, Start(), ss);
      t.seen == 1 && t.handed[0] == 0 && !t.pend[0] && t'.seen == 1 && t'.handed[0] == 0 && t'.pend[0]
  {
    Bits.ZeroBits(30);
    Bits.ZeroBits(27);
    TwoPasses(Dropping, Start(), Slice([0, 0, 0, 0], Timer), Slice([0, 0, 0, 0], Other));
    TwoPasses(Weighted, Start(), Slice([0, 0, 0, 0], Timer), Slice([0, 0, 0, 0], Other));
  }

  lemma TwoPasses(p: Policy, t: Tenancy, a: Slice, b: Slice)
    requires Shaped(t) && GoodSlice(a) && GoodSlice(b)
    ensures PassAll(p, t, [a, b]) == Pass(p, Pass(p, t, a), b)
  {
    assert [a, b][..1] == [a] && [a][..0] == [];
    assert PassAll(p, t, [a]) == Pass(p, t, a);
  }

  /** Among ticks 1..n, how many select VM 1 under the weighted policies. */
  function Selections(n: nat): nat { if n == 0 then 0 else Selections(n - 1) + if n % 4 == 0 then 1 else 0 }

  /** n ticks select VM 1 exactly n/4 times, so any four consecutive ticks do so exactly once. */
  lemma {:induction false} WeightedShare(n: nat)
    ensures Selections(n) == n / 4 && Selections(n + 4) == Selections(n) + 1
  {
    if n > 0 {
      WeightedShare(n - 1);
    }
  }

  // ---- the loop ----

  class Loop {
    const policy: Policy
    var bank: Bank
    var pend: seq<bool>
    var cur: int
    var slot: nat
    var lr: seq<Lrs>
    ghost var seen: nat
    ghost var handed: seq<nat>
    ghost var toSecond: nat
    ghost var writes: Trace
    ghost var grants: seq<Grant>

    ghost function Now(): Tenancy
      reads this
    {
      Tenancy(bank, pend, cur, slot, lr, seen, handed, toSecond, writes, grants)
    }

    constructor (policy: Policy)
      ensures this.policy == policy && Now() == Start()
    {
      this.policy := policy;
      bank, pend, cur, slot, lr := ResetBank(), [false, false], 0, 0, [[0, 0, 0, 0], [0, 0, 0, 0]];
      seen, handed, toSecond, writes, grants := 0, [0, 0], 0, [], [];
    }

    method Place(id: u32)
      requires Shaped(Now())
      modifies this`lr, this`handed, this`grants
      ensures Now() == WithGrant(old(Now()), id)
    {
      lr := lr[cur := Inject(lr[cur], id)];
      handed := handed[cur := handed[cur] + 1];
      grants := grants + [Grant(cur, id, |writes|)];
    }

    /** Hand the latched tick to the VM about to run. */
    method Deliver()
      requires Shaped(Now())
      modifies this`pend, this`lr, this`handed, this`grants
      ensures Now() == Delivered(policy, old(Now()))
    {
      if pend[cur] {
        match policy {
          case Swap =>
            if IrqEnabled(bank, cur, 27) {
              Place(27);
              pend := pend[cur := false];
            }
          case Weighted =>
            var id := if cur == 0 then 30 else 27;
            if IrqEnabled(bank, cur, id) {
              Place(id);
              pend := pend[cur := false];
            }
          case Dropping =>
            if IrqEnabled(bank, cur, 30) {
              Place(30);
            } else if IrqEnabled(bank, cur, 27) {
              Place(27);
            }
            pend := pend[cur := false];
        }
      }
    }

    /** Act on the exit. */
    method Handle(e: Exit)
      requires Shaped(Now()) && GoodExit(e)
      modifies this`bank, this`pend, this`cur, this`slot, this`seen, this`toSecond, this`writes
      ensures Now() == Handled(policy, old(Now()), e)
    {
      match e {
        case Timer =>
          seen := seen + 1;
          pend := [true, true];
          if policy.Swap? {
            cur := 1 - cur;
          } else {
            slot := slot + 1;
            cur := if slot % 4 == 0 then 1 else 0;
            toSecond := toSecond + cur;
          }
        case GicStore(vm, ipa, wide, val) =>
          ghost var was := bank;
          bank := Write(bank, vm, ipa, val % TWO32);
          if wide {
            bank := Write(bank, vm, ipa + 4, val / TWO32);
          }
          writes := writes + AccessWords(vm, ipa, wide, val);
          AccessIs(was, vm, ipa, wide, val);
        case Other =>
      }
    }

    /** One pass of the loop body. */
    method OnePass(s: Slice)
      requires Shaped(Now()) && GoodSlice(s)
      modifies this
      ensures Now() == Pass(policy, old(Now()), s)
    {
      Deliver();
      lr := lr[cur := WhileGuestRuns(lr[cur], s.acks)];
      Handle(s.exit);
    }

    /** Any run of the loop. */
    method Run(slices: seq<Slice>)
      requires Shaped(Now()) && forall s :: s in slices ==> GoodSlice(s)
      modifies this
      ensures Now() == PassAll(policy, old(Now()), slices)
    {
      for n := 0 to |slices|
        invariant Shaped(Now()) && Now() == PassAll(policy, old(Now()), slices[..n])
      {
        assert GoodSlice(slices[n]) && slices[..n + 1][..n] == slices[..n];
        OnePass(slices[n]);
      }
      assert slices[..|slices|] == slices;
    }
  }
}
