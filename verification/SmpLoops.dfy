/**
 * The two loops that bring up a second vCPU on a guest's PSCI CPU_ON call and
 * time-slice both on one core: SMP Linux on the emulated GIC, and the PSCI demo.
 */
module SmpLoops {
  import opened Words
  import Bits
  import opened VgicSpec
  import opened ListRegisters
  import U = Vuart
  import W = WorldSwitch

  /** The demo gives its second vCPU a stack; Linux sets up its own. */
  datatype Kind = Linux | PsciDemo(stackTop: u64)

  /** How a guest came back. Conduits: SMC and HVC; sysreg traps carry CRn and the written value. */
  datatype Exit =
    | Irq(timer: bool)
    | Abort(ipa: u64, wide: bool, write: bool, val: u64)
    | Sysreg(crn: int, val: u64)
    | Call(smc: bool, fn: u32, x2: u64, x3: u64)
    | Unknown

  /** One pass: the key typed meanwhile (negative: none), what the guest did to its list registers, how it came back. */
  datatype Pass = Pass(key: int, acks: seq<int>, exit: Exit)

  function StackTop(k: Kind): u64 { if k.Linux? then 0 else k.stackTop }

  predicate IsCpuOn(fn: u32) { fn == 0xC400_0003 || fn == 0x8400_0003 }

  predicate IsOff(fn: u32) { fn == 0x8400_0008 || fn == 0x8400_0009 }

  /** The loop passes this call on to PSCI. */
  predicate Conducted(k: Kind, e: Exit)
    requires e.Call?
  {
    match k
    case Linux => true
    case PsciDemo => !e.smc && (e.fn / TWO16 == 0xC400 || e.fn / TWO16 == 0x8400)
  }

  predicate AsksCpuOn(k: Kind, e: Exit) { e.Call? && Conducted(k, e) && IsCpuOn(e.fn) }

  /** Entry point and context of the latest CPU_ON call in a history of exits, if there is one. */
  function LatestCpuOn(k: Kind, h: seq<Exit>): Option<(u64, u64)> {
    if h == [] then None
    else if AsksCpuOn(k, h[|h| - 1]) then Some((h[|h| - 1].x2, h[|h| - 1].x3))
    else LatestCpuOn(k, h[..|h| - 1])
  }

  lemma LatestSnoc(k: Kind, h: seq<Exit>, e: Exit)
    ensures LatestCpuOn(k, h + [e]) == if AsksCpuOn(k, e) then Some((e.x2, e.x3)) else LatestCpuOn(k, h)
  {
    assert (h + [e])[..|h|] == h;
  }

  /** The GIC register writes an exit amounts to. */
  function WordsOf(k: Kind, e: Exit): Trace {
    if k.Linux? && e.Abort? && e.write && VgicSpec.Contains(e.ipa) then AccessWords(0, e.ipa, e.wide, e.val) else []
  }

  /** All GIC register writes in a history of exits. */
  function GicWrites(k: Kind, h: seq<Exit>): Trace {
    if h == [] then [] else GicWrites(k, h[..|h| - 1]) + WordsOf(k, h[|h| - 1])
  }

  datatype Source = Timer | UartLine | Sgi

  /** An interrupt handed to vgic_inject: to whom, which, why, and after how many exits. */
  datatype Grant = Grant(vcpu: int, intid: int, source: Source, at: nat)

  /** The latest GIC write to have touched the line in a history of exits was a set. */
  predicate SetBy(k: Kind, h: seq<Exit>, l: Line)
    requires GoodLine(l)
  {
    LastTouch(GicWrites(k, h), l, false)
  }

  /**
   * A timer or UART interrupt is placed only if, by the guest's own register writes up
   * to that moment, its line is enabled; SGIs are numbered 0..15.
   */
  predicate Gated(k: Kind, h: seq<Exit>, g: Grant) {
    && 0 <= g.vcpu < 2 && g.at <= |h|
    && match g.source
       case Timer => (g.intid == 27 || g.intid == 30) && SetBy(k, h[..g.at], Private(g.vcpu, g.intid))
       case UartLine => g.intid == 33 && g.vcpu == 0 && SetBy(k, h[..g.at], Shared(0, 33))
       case Sgi => 0 <= g.intid < 16
  }

  /** The interrupts placed for vCPU v. */
  function Granted(grants: seq<Grant>, v: int): set<int> { set g | g in grants && g.vcpu == v :: g.intid }

  lemma GrantedSnoc(grants: seq<Grant>, g: Grant, v: int)
    ensures Granted(grants + [g], v) == Granted(grants, v) + if g.vcpu == v then {g.intid} else {}
  {
  }

  /** An SGI on its way: sent by a vCPU to all others, taken from its mask by one. */
  datatype SgiEvent = Sent(vcpu: int, id: int) | Taken(vcpu: int, id: int)

  /** SGI b has been sent to vCPU v and not taken since. */
  predicate Outstanding(log: seq<SgiEvent>, v: int, b: int) {
    if log == [] then false
    else
      match log[|log| - 1]
      case Sent(w, id) => (id == b && w != v) || Outstanding(log[..|log| - 1], v, b)
      case Taken(w, id) => !(id == b && w == v) && Outstanding(log[..|log| - 1], v, b)
  }

  ghost predicate OnlySgis(p: Pending) { forall i :: 0 <= i < MAX_VCPUS ==> p[i] < Bits.Pow2(16) }

  /** A turn of vCPU `who`, and whether the second vCPU was up at that time. */
  datatype Turn = Turn(who: int, up: bool)

  /** Emulated GIC and UART, list registers of both vCPUs, and the SGIs and interrupts placed so far. */
  datatype Irqs = Irqs(bank: Bank, sgi: Pending, uart: U.Uart, lr: seq<Lrs>, sgis: seq<SgiEvent>, grants: seq<Grant>)

  /** Who runs: the current vCPU, whether the second is up, and the turns taken so far. */
  datatype Sched = Sched(cur: int, up: bool, halted: seq<bool>, stopped: bool, inits: nat, ran: seq<Turn>)

  /** The CPU_ON mailbox, the arguments the second vCPU was started with and after how many exits, and the exits so far. */
  datatype Psci = Psci(pending: bool, entry: u64, ctx: u64, boot: Option<(u64, u64)>, bootAt: nat, history: seq<Exit>)

  datatype Smp = Smp(irq: Irqs, sched: Sched, psci: Psci)

  predicate Shaped(s: Smp) { |s.irq.lr| == 2 && |s.sched.halted| == 2 && 0 <= s.sched.cur < 2 }

  function Start(): Smp {
    Smp(Irqs(ResetBank(), [0, 0, 0, 0], U.Uart(None, 0), [[0, 0, 0, 0], [0, 0, 0, 0]], [], []),
        Sched(0, false, [false, false], false, 0, []), Psci(false, 0, 0, None, 0, []))
  }

  // ---- the interrupt side ----

  /** vgic_inject of id into vCPU v. */
  function Place(i: Irqs, v: int, id: u32, source: Source, at: nat): Irqs
    requires |i.lr| == 2 && 0 <= v < 2
  {
    i.(lr := i.lr[v := Inject(i.lr[v], id)], grants := i.grants + [Grant(v, id, source, at)])
  }

  /** Host key to the emulated UART, and its interrupt to vCPU 0 if the guest wants it. */
  function ForwardKey(i: Irqs, key: int, at: nat): Irqs
    requires |i.lr| == 2
  {
    if key < 0 then i
    else
      var i' := i.(uart := U.Push(i.uart, key));
      if U.IrqPending(i'.uart) && SpiEnabled(i.bank, 0, 33) then Place(i', 0, 33, UartLine, at) else i'
  }

  /** The lowest pending SGI of the vCPU about to run moves to a list register. */
  function DeliverSgi(i: Irqs, cur: int, at: nat): Irqs
    requires |i.lr| == 2 && 0 <= cur < 2
  {
    var id := FirstSgi(i.sgi[cur], 0);
    if id >= 0 then Place(Taking(i, cur, id), cur, id, Sgi, at) else i
  }

  function Taking(i: Irqs, cur: int, id: int): Irqs
    requires 0 <= cur < 2
  {
    i.(sgi := i.sgi[cur := Popped(i.sgi[cur])], sgis := i.sgis + [Taken(cur, id)])
  }

  function Sending(i: Irqs, cur: int, id: u32): Irqs { i.(sgi := Post(i.sgi, cur, id), sgis := i.sgis + [Sent(cur, id)]) }

  function GuestRan(i: Irqs, cur: int, acks: seq<int>): Irqs
    requires |i.lr| == 2 && 0 <= cur < 2 && |acks| == 4
  {
    i.(lr := i.lr[cur := WhileGuestRuns(i.lr[cur], acks)])
  }

  /** A tick goes to the running vCPU through the timer PPI it has enabled; the demo has none. */
  function Tick(k: Kind, i: Irqs, cur: int, at: nat): Irqs
    requires |i.lr| == 2 && 0 <= cur < 2
  {
    if k.PsciDemo? then i
    else if IrqEnabled(i.bank, cur, 30) then Place(i, cur, 30, Timer, at)
    else if IrqEnabled(i.bank, cur, 27) then Place(i, cur, 27, Timer, at)
    else i
  }

  /** A trapped device access: the GIC, the UART, or nothing. */
  function Access(i: Irqs, ipa: u64, wide: bool, write: bool, val: u64): Irqs {
    if VgicSpec.Contains(ipa) then
      if write then i.(bank := After(i.bank, AccessWords(0, ipa, wide, val))) else i
    else if U.UART_BASE <= ipa < U.UART_BASE + 0x1000 then
      i.(uart := U.Step(i.uart, if write then U.Store(ipa - U.UART_BASE, val) else U.Load(ipa - U.UART_BASE)))
    else i
  }

  /** All the interrupt side does with an exit. */
  function IrqsAfter(k: Kind, i: Irqs, cur: int, e: Exit, at: nat): Irqs
    requires |i.lr| == 2 && 0 <= cur < 2
  {
    match e
    case Irq(timer) => if timer then Tick(k, i, cur, at) else i
    case Abort(ipa, wide, write, val) => if k.Linux? then Access(i, ipa, wide, write, val) else i
    case Sysreg(crn, val) => if k.PsciDemo? || crn == 12 then Sending(i, cur, val / 0x100_0000 % 16) else i
    case _ => i
  }

  // ---- scheduling and bring-up ----

  /** The loop ends on exits it does not know. */
  predicate Stops(k: Kind, e: Exit) { e.Unknown? || (e.Abort? && k.PsciDemo?) || (e.Call? && !Conducted(k, e)) }

  function SchedAfter(k: Kind, s: Sched, e: Exit): Sched
    requires |s.halted| == 2 && 0 <= s.cur < 2
  {
    if Stops(k, e) then s.(stopped := true)
    else if e == Irq(true) && s.up then s.(cur := 1 - s.cur)
    else if e.Call? && IsOff(e.fn) then s.(halted := s.halted[s.cur := true])
    else s
  }

  function PsciAfter(k: Kind, p: Psci, e: Exit): Psci {
    var p' := p.(history := p.history + [e]);
    if AsksCpuOn(k, e) then p'.(entry := e.x2, ctx := e.x3, pending := true) else p'
  }

  /** The secondary is initialised the first time a CPU_ON is pending. */
  function BringUp(s: Smp): (r: Smp)
    requires Shaped(s)
    ensures Shaped(r)
  {
    if s.psci.pending && !s.sched.up then
      Smp(s.irq.(lr := s.irq.lr[1 := [0, 0, 0, 0]]),
          s.sched.(up := true, inits := s.sched.inits + 1),
          s.psci.(boot := Some((s.psci.entry, s.psci.ctx)), pending := false, bootAt := |s.psci.history|))
    else s
  }

  /** Keys and SGIs to the list registers, and the guest's run on them. */
  function GuestTurn(k: Kind, i: Irqs, cur: int, p: Pass, at: nat): (r: Irqs)
    requires |i.lr| == 2 && 0 <= cur < 2 && |p.acks| == 4
    ensures |r.lr| == 2
  {
    GuestRan(DeliverSgi(if k.Linux? then ForwardKey(i, p.key, at) else i, cur, at), cur, p.acks)
  }

  /** From the top of the loop body to the guest's return. */
  function Entered(k: Kind, s: Smp, p: Pass): (r: Smp)
    requires Shaped(s) && |p.acks| == 4
    ensures Shaped(r)
  {
    var s1 := BringUp(s);
    var cur := s1.sched.cur;
    Smp(GuestTurn(k, s1.irq, cur, p, |s1.psci.history|),
        s1.sched.(ran := s1.sched.ran + [Turn(cur, s1.sched.up)]), s1.psci)
  }

  lemma EnteredIs(k: Kind, s: Smp, p: Pass, s1: Smp, i: Irqs)
    requires Shaped(s) && |p.acks| == 4 && s1 == BringUp(s)
    requires i == GuestTurn(k, s1.irq, s1.sched.cur, p, |s1.psci.history|)
    ensures Entered(k, s, p) == Smp(i, s1.sched.(ran := s1.sched.ran + [Turn(s1.sched.cur, s1.sched.up)]), s1.psci)
  {
  }

  /** The dispatch on the exit. */
  function Handled(k: Kind, s: Smp, e: Exit): (r: Smp)
    requires Shaped(s)
    ensures Shaped(r)
  {
    Smp(IrqsAfter(k, s.irq, s.sched.cur, e, |s.psci.history|), SchedAfter(k, s.sched, e), PsciAfter(k, s.psci, e))
  }

  /** One pass of the loop body; a stopped loop does nothing. */
  function Next(k: Kind, s: Smp, p: Pass): (r: Smp)
    requires Shaped(s) && |p.acks| == 4
    ensures Shaped(r)
  {
    if s.sched.stopped then s
    else
      var s' := Entered(k, s, p);
      if k.Linux? && s'.sched.halted[s'.sched.cur] then s'.(sched := s'.sched.(stopped := true)) else Handled(k, s', p.exit)
  }

  function NextAll(k: Kind, s: Smp, ps: seq<Pass>): (r: Smp)
    requires Shaped(s) && forall p :: p in ps ==> |p.acks| == 4
    ensures Shaped(r)
  {
    if ps == [] then s
    else
      assert ps[|ps| - 1] in ps;
      Next(k, NextAll(k, s, ps[..|ps| - 1]), ps[|ps| - 1])
  }

  // ---- what every run keeps ----

  /** The register file is what the guest's writes have made of it. */
  ghost predicate BankWritten(k: Kind, bank: Bank, h: seq<Exit>) { bank == After(ResetBank(), GicWrites(k, h)) }

  /** No SGI is lost or invented: exactly those sent and not yet taken are pending. */
  ghost predicate SgisKept(sgi: Pending, log: seq<SgiEvent>) {
    forall v, b :: 0 <= v < MAX_VCPUS && 0 <= b < 16 ==> (Bits.Bit(sgi[v], b) <==> Outstanding(log, v, b))
  }

  ghost predicate GrantsGated(k: Kind, grants: seq<Grant>, h: seq<Exit>) { forall g :: g in grants ==> Gated(k, h, g) }

  /** The list registers of a vCPU hold different interrupts, all placed for it by the loop. */
  ghost predicate LrsOk(i: Irqs) {
    |i.lr| == 2 && forall v :: 0 <= v < 2 ==> Unique(i.lr[v]) && Within(i.lr[v], Granted(i.grants, v))
  }

  ghost predicate IrqsOk(k: Kind, i: Irqs, h: seq<Exit>) {
    LrsOk(i) && OnlySgis(i.sgi) && SgisKept(i.sgi, i.sgis) && BankWritten(k, i.bank, h) && GrantsGated(k, i.grants, h)
  }

  /** The second vCPU is current, and has run, only while up; it was initialised exactly once by then. */
  ghost predicate SchedOk(s: Sched) {
    && (s.cur == 1 ==> s.up) && s.inits == (if s.up then 1 else 0)
    && (forall r :: r in s.ran && r.who == 1 ==> r.up)
  }

  /**
   * A pending bring-up carries the arguments of the latest CPU_ON, and a vCPU
   * that is up was started with those of the latest CPU_ON at that time.
   */
  ghost predicate PsciOk(k: Kind, p: Psci, up: bool) {
    && (p.pending ==> LatestCpuOn(k, p.history) == Some((p.entry, p.ctx)))
    && (up ==> p.bootAt <= |p.history| && p.boot.Some? && p.boot == LatestCpuOn(k, p.history[..p.bootAt]))
  }

  ghost predicate Inv(k: Kind, s: Smp) {
    Shaped(s) && IrqsOk(k, s.irq, s.psci.history) && SchedOk(s.sched) && PsciOk(k, s.psci, s.sched.up)
  }

  lemma PlaceKeepsLrs(i: Irqs, v: int, id: u32, source: Source, at: nat)
    requires LrsOk(i) && 0 <= v < 2
    ensures LrsOk(Place(i, v, id, source, at))
  {
    var g, i' := Grant(v, id, source, at), Place(i, v, id, source, at);
    InjectEffect(i.lr[v], id);
    forall w | 0 <= w < 2 ensures Unique(i'.lr[w]) && Within(i'.lr[w], Granted(i'.grants, w)) {
      GrantedSnoc(i.grants, g, w);
      if w == v {
        InjectWithin(i.lr[v], id, Granted(i.grants, v), Granted(i'.grants, v));
      }
    }
  }

  lemma PlaceKeeps(k: Kind, i: Irqs, h: seq<Exit>, v: int, id: u32, source: Source)
    requires IrqsOk(k, i, h) && 0 <= v < 2 && Gated(k, h, Grant(v, id, source, |h|))
    ensures IrqsOk(k, Place(i, v, id, source, |h|), h)
  {
    PlaceKeepsLrs(i, v, id, source, |h|);
  }

  /** A line the loop finds enabled has been set by the guest's writes. */
  lemma EnabledIsSet(k: Kind, bank: Bank, h: seq<Exit>, l: Line)
    requires GoodLine(l) && BankWritten(k, bank, h) && Enabled(bank, l)
    ensures SetBy(k, h[..|h|], l)
  {
    assert h[..|h|] == h;
    EnabledSinceReset(GicWrites(k, h), l);
  }

  lemma ForwardKeyKeeps(k: Kind, i: Irqs, h: seq<Exit>, key: int)
    requires IrqsOk(k, i, h)
    ensures IrqsOk(k, ForwardKey(i, key, |h|), h)
  {
    if key >= 0 {
      var i' := i.(uart := U.Push(i.uart, key));
      if U.IrqPending(i'.uart) && SpiEnabled(i.bank, 0, 33) {
        EnabledIsSet(k, i.bank, h, Shared(0, 33));
        PlaceKeeps(k, i', h, 0, 33, UartLine);
      }
    }
  }

  lemma TakingKeeps(sgi: Pending, log: seq<SgiEvent>, cur: int, id: int)
    requires 0 <= cur < 2 && id == FirstSgi(sgi[cur], 0) >= 0 && OnlySgis(sgi) && SgisKept(sgi, log)
    ensures OnlySgis(sgi[cur := Popped(sgi[cur])]) && SgisKept(sgi[cur := Popped(sgi[cur])], log + [Taken(cur, id)])
  {
    var sgi', log' := sgi[cur := Popped(sgi[cur])], log + [Taken(cur, id)];
    PopExact(sgi[cur], 0);
    forall v, b | 0 <= v < MAX_VCPUS && 0 <= b < 16 ensures Bits.Bit(sgi'[v], b) <==> Outstanding(log', v, b) {
      assert log'[..|log|] == log;
      PopExact(sgi[cur], b);
    }
  }

  lemma SendingKeeps(sgi: Pending, log: seq<SgiEvent>, cur: int, id: u32)
    requires id < 16 && OnlySgis(sgi) && SgisKept(sgi, log)
    ensures OnlySgis(Post(sgi, cur, id)) && SgisKept(Post(sgi, cur, id), log + [Sent(cur, id)])
  {
    var sgi', log' := Post(sgi, cur, id), log + [Sent(cur, id)];
    forall v | 0 <= v < MAX_VCPUS ensures sgi'[v] < Bits.Pow2(16) {
      PostEffect(sgi, cur, id, v, 0);
    }
    forall v, b | 0 <= v < MAX_VCPUS && 0 <= b < 16 ensures Bits.Bit(sgi'[v], b) <==> Outstanding(log', v, b) {
      assert log'[..|log|] == log;
      PostEffect(sgi, cur, id, v, b);
    }
  }

  lemma DeliverSgiKeeps(k: Kind, i: Irqs, h: seq<Exit>, cur: int)
    requires IrqsOk(k, i, h) && 0 <= cur < 2
    ensures IrqsOk(k, DeliverSgi(i, cur, |h|), h)
  {
    var id := FirstSgi(i.sgi[cur], 0);
    if id >= 0 {
      TakingKeeps(i.sgi, i.sgis, cur, id);
      PlaceKeeps(k, Taking(i, cur, id), h, cur, id, Sgi);
    }
  }

  lemma TickKeeps(k: Kind, i: Irqs, h: seq<Exit>, cur: int)
    requires IrqsOk(k, i, h) && 0 <= cur < 2
    ensures IrqsOk(k, Tick(k, i, cur, |h|), h)
  {
    if k.Linux? && IrqEnabled(i.bank, cur, 30) {
      EnabledIsSet(k, i.bank, h, Private(cur, 30));
      PlaceKeeps(k, i, h, cur, 30, Timer);
    } else if k.Linux? && IrqEnabled(i.bank, cur, 27) {
      EnabledIsSet(k, i.bank, h, Private(cur, 27));
      PlaceKeeps(k, i, h, cur, 27, Timer);
    }
  }

  lemma GatedStays(k: Kind, grants: seq<Grant>, h: seq<Exit>, e: Exit)
    requires GrantsGated(k, grants, h)
    ensures GrantsGated(k, grants, h + [e])
  {
    forall g | g in grants ensures Gated(k, h + [e], g) {
      assert Gated(k, h, g) && (h + [e])[..g.at] == h[..g.at];
    }
  }

  /** An exit changes the register file by its own register writes and by nothing else. */
  lemma BankStays(k: Kind, i: Irqs, h: seq<Exit>, cur: int, e: Exit)
    requires |i.lr| == 2 && 0 <= cur < 2 && BankWritten(k, i.bank, h)
    ensures BankWritten(k, IrqsAfter(k, i, cur, e, |h|).bank, h + [e])
  {
    var h' := h + [e];
    assert h'[..|h|] == h && GicWrites(k, h') == GicWrites(k, h) + WordsOf(k, e);
    AfterConcat(ResetBank(), GicWrites(k, h), WordsOf(k, e), GicWrites(k, h'));
    assert IrqsAfter(k, i, cur, e, |h|).bank == After(i.bank, WordsOf(k, e));
  }

  lemma IrqsAfterKeeps(k: Kind, i: Irqs, h: seq<Exit>, cur: int, e: Exit, i': Irqs, h': seq<Exit>)
    requires IrqsOk(k, i, h) && 0 <= cur < 2 && i' == IrqsAfter(k, i, cur, e, |h|) && h' == h + [e]
    ensures IrqsOk(k, i', h')
  {
    BankStays(k, i, h, cur, e);
    match e {
      case Irq(timer) =>
        TickKeeps(k, i, h, cur);
        GatedStays(k, Tick(k, i, cur, |h|).grants, h, e);
      case Sysreg(crn, val) => SendingKeeps(i.sgi, i.sgis, cur, val / 0x100_0000 % 16);
      case _ =>
    }
    GatedStays(k, i.grants, h, e);
  }

  lemma PsciAfterKeeps(k: Kind, p: Psci, e: Exit, up: bool)
    requires PsciOk(k, p, up)
    ensures PsciOk(k, PsciAfter(k, p, e), up)
  {
    LatestSnoc(k, p.history, e);
    if up {
      assert (p.history + [e])[..p.bootAt] == p.history[..p.bootAt];
    }
  }

  lemma BringUpKeeps(k: Kind, s: Smp)
    requires Inv(k, s)
    ensures Inv(k, BringUp(s))
  {
    assert s.psci.history[..|s.psci.history|] == s.psci.history;
    IdleOk(Granted(s.irq.grants, 1));
  }

  lemma EnteredKeeps(k: Kind, s: Smp, p: Pass)
    requires Inv(k, s) && |p.acks| == 4
    ensures Inv(k, Entered(k, s, p))
  {
    BringUpKeeps(k, s);
    var s1 := BringUp(s);
    var h, cur := s1.psci.history, s1.sched.cur;
    GuestTurnKeeps(k, s1.irq, h, cur, p);
    TurnKeeps(s1.sched);
  }

  lemma GuestTurnKeeps(k: Kind, i: Irqs, h: seq<Exit>, cur: int, p: Pass)
    requires IrqsOk(k, i, h) && 0 <= cur < 2 && |p.acks| == 4
    ensures IrqsOk(k, GuestTurn(k, i, cur, p, |h|), h)
  {
    var i' := if k.Linux? then ForwardKey(i, p.key, |h|) else i;
    ForwardKeyKeeps(k, i, h, p.key);
    DeliverSgiKeeps(k, i', h, cur);
    GuestRanKeeps(k, DeliverSgi(i', cur, |h|), h, cur, p.acks);
  }

  lemma GuestRanKeeps(k: Kind, i: Irqs, h: seq<Exit>, cur: int, acks: seq<int>)
    requires IrqsOk(k, i, h) && 0 <= cur < 2 && |acks| == 4
    ensures IrqsOk(k, GuestRan(i, cur, acks), h)
  {
    GuestKeepsUnique(i.lr[cur], acks);
    GuestWithin(i.lr[cur], acks, Granted(i.grants, cur));
  }

  lemma TurnKeeps(s: Sched)
    requires SchedOk(s)
    ensures SchedOk(s.(ran := s.ran + [Turn(s.cur, s.up)]))
  {
  }

  lemma SchedAfterKeeps(k: Kind, s: Sched, e: Exit)
    requires |s.halted| == 2 && 0 <= s.cur < 2 && SchedOk(s)
    ensures SchedOk(SchedAfter(k, s, e)) && SchedAfter(k, s, e).up == s.up
    ensures |SchedAfter(k, s, e).halted| == 2 && 0 <= SchedAfter(k, s, e).cur < 2
  {
  }

  lemma Together(k: Kind, i: Irqs, s: Sched, p: Psci)
    requires |s.halted| == 2 && 0 <= s.cur < 2 && IrqsOk(k, i, p.history) && SchedOk(s) && PsciOk(k, p, s.up)
    ensures Inv(k, Smp(i, s, p))
  {
  }

  lemma HandledKeeps(k: Kind, s: Smp, e: Exit)
    requires Inv(k, s)
    ensures Inv(k, Handled(k, s, e))
  {
    HandledParts(k, s.irq, s.sched, s.psci, e);
  }

  lemma HandledParts(k: Kind, i: Irqs, c: Sched, m: Psci, e: Exit)
    requires |c.halted| == 2 && 0 <= c.cur < 2 && IrqsOk(k, i, m.history) && SchedOk(c) && PsciOk(k, m, c.up)
    ensures Inv(k, Smp(IrqsAfter(k, i, c.cur, e, |m.history|), SchedAfter(k, c, e), PsciAfter(k, m, e)))
  {
    var i', c', m' := IrqsAfter(k, i, c.cur, e, |m.history|), SchedAfter(k, c, e), PsciAfter(k, m, e);
    assert IrqsOk(k, i', m'.history) by {
      IrqsAfterKeeps(k, i, m.history, c.cur, e, i', m'.history);
    }
    assert |c'.halted| == 2 && 0 <= c'.cur < 2 && SchedOk(c') && c'.up == c.up by {
      SchedAfterKeeps(k, c, e);
    }
    assert PsciOk(k, m', c'.up) by {
      PsciAfterKeeps(k, m, e, c.up);
    }
    Together(k, i', c', m');
  }

  /**
   * In every run of either loop: the list registers of a vCPU hold different interrupts,
   * each placed for it by the loop; a timer or UART interrupt was placed only when the
   * latest guest write to have touched its enable bit had set it; exactly the SGIs sent
   * to a vCPU and not yet taken are pending; the second vCPU never runs before it is up,
   * is initialised at most once, and was started with the arguments of the latest CPU_ON
   * before that.
   */
  lemma {:induction false} RunKeeps(k: Kind, ps: seq<Pass>)
    requires forall p :: p in ps ==> |p.acks| == 4
    ensures Inv(k, NextAll(k, Start(), ps))
    decreases |ps|
  {
    if ps != [] {
      assert ps[|ps| - 1] in ps;
      RunKeeps(k, ps[..|ps| - 1]);
      NextKeeps(k, NextAll(k, Start(), ps[..|ps| - 1]), ps[|ps| - 1]);
    } else {
      StartOk(k);
    }
  }

  lemma NextKeeps(k: Kind, s: Smp, p: Pass)
    requires Inv(k, s) && |p.acks| == 4
    ensures Inv(k, Next(k, s, p))
  {
    if !s.sched.stopped {
      var s' := Entered(k, s, p);
      EnteredKeeps(k, s, p);
      if k.Linux? && s'.sched.halted[s'.sched.cur] {
        StopKeeps(k, s');
      } else {
        HandledKeeps(k, s', p.exit);
      }
    }
  }

  lemma StopKeeps(k: Kind, s: Smp)
    requires Inv(k, s)
    ensures Inv(k, s.(sched := s.sched.(stopped := true)))
  {
  }

  lemma StartOk(k: Kind)
    ensures Inv(k, Start())
  {
    ZeroSgis();
    IdleOk(Granted([], 0));
    IdleOk(Granted([], 1));
  }

  lemma ZeroSgis()
    ensures OnlySgis([0, 0, 0, 0]) && SgisKept([0, 0, 0, 0], [])
  {
    forall b: nat ensures !Bits.Bit(0, b) {
      Bits.ZeroBits(b);
    }
  }

  /** Once up, the second vCPU stays up and is never initialised again, over any run. */
  lemma {:induction false} BootFixed(k: Kind, s: Smp, ps: seq<Pass>)
    requires Shaped(s) && s.sched.up && forall p :: p in ps ==> |p.acks| == 4
    ensures var e := NextAll(k, s, ps);
      e.sched.up && e.sched.inits == s.sched.inits && e.psci.boot == s.psci.boot && e.psci.bootAt == s.psci.bootAt
    decreases |ps|
  {
    if ps != [] {
      assert ps[|ps| - 1] in ps;
      BootFixed(k, s, ps[..|ps| - 1]);
      BootFixedOnce(k, NextAll(k, s, ps[..|ps| - 1]), ps[|ps| - 1]);
    }
  }

  lemma BootFixedOnce(k: Kind, s: Smp, p: Pass)
    requires Shaped(s) && |p.acks| == 4 && s.sched.up
    ensures var e := Next(k, s, p);
      e.sched.up && e.sched.inits == s.sched.inits && e.psci.boot == s.psci.boot && e.psci.bootAt == s.psci.bootAt
  {
    assert BringUp(s) == s;
  }

  /**
   * The SGI of a vCPU about to run: exactly its lowest pending one leaves the mask,
   * and it ends in a list register, merges with the same one queued, or meets four
   * registers busy with other interrupts.
   */
  lemma SgiFate(i: Irqs, cur: int, b: nat, at: nat)
    requires |i.lr| == 2 && 0 <= cur < 2
    ensures var id, i' := FirstSgi(i.sgi[cur], 0), DeliverSgi(i, cur, at);
      && (Bits.Bit(i'.sgi[cur], b) <==> Bits.Bit(i.sgi[cur], b) && b != id)
      && (id >= 0 ==> Queued(i'.lr[cur], id) || (AllBusy(i.lr[cur]) && !Queued(i.lr[cur], id)))
      && (id < 0 ==> i'.lr == i.lr)
      && forall v :: 0 <= v < MAX_VCPUS && v != cur ==> i'.sgi[v] == i.sgi[v]
  {
    PopExact(i.sgi[cur], b);
    if FirstSgi(i.sgi[cur], 0) >= 0 {
      InjectEffect(i.lr[cur], FirstSgi(i.sgi[cur], 0));
    }
  }

  // ---- what the loop delivers ----

  /** The interrupt is queued, or four registers hold others. */
  predicate Delivered(l: Lrs, id: u32) { Queued(l, id) || AllBusy(l) }

  lemma InjectDelivers(l: Lrs, id: u32, other: u32)
    ensures Delivered(Inject(l, id), id) && (other != id ==> (Queued(Inject(l, id), other) <==> Queued(l, other)))
    ensures AllBusy(l) ==> AllBusy(Inject(l, id))
  {
    InjectEffect(l, id);
    if other != id {
      InjectKeepsOthers(l, id, other);
    }
  }

  /** A pass that reaches the dispatch: the loop goes on, and the vCPU it runs has not been switched off. */
  predicate Handles(k: Kind, s: Smp)
    requires Shaped(s)
  {
    !s.sched.stopped && (k.Linux? ==> !s.sched.halted[s.sched.cur])
  }

  lemma PassIs(k: Kind, s: Smp, p: Pass)
    requires Shaped(s) && |p.acks| == 4 && Handles(k, s)
    ensures Next(k, s, p) == Handled(k, Entered(k, s, p), p.exit)
    ensures Entered(k, s, p).sched.cur == s.sched.cur && Entered(k, s, p).psci.history == s.psci.history
    ensures Entered(k, s, p).irq.bank == s.irq.bank
    ensures Entered(k, s, p).sched.up == (s.sched.up || s.psci.pending)
  {
  }

  /** The scheduling side of such a pass. */
  lemma PassParts(k: Kind, s: Smp, p: Pass, c: Sched, m: Psci)
    requires Shaped(s) && |p.acks| == 4 && Handles(k, s) && c == Entered(k, s, p).sched && m == Entered(k, s, p).psci
    ensures Next(k, s, p).sched == SchedAfter(k, c, p.exit) && Next(k, s, p).psci == PsciAfter(k, m, p.exit)
    ensures c.cur == s.sched.cur && c.halted == s.sched.halted && c.up == (s.sched.up || s.psci.pending) && !c.stopped
    ensures s.sched.up || !s.psci.pending ==> m == s.psci
  {
  }

  /** The line is enabled exactly when the guest's own writes so far say so. */
  lemma EnabledExact(k: Kind, s: Smp, l: Line)
    requires GoodLine(l) && Inv(k, s)
    ensures Enabled(s.irq.bank, l) <==> SetBy(k, s.psci.history, l)
  {
    EnabledSinceReset(GicWrites(k, s.psci.history), l);
  }

  /** The first timer interrupt vCPU v has enabled by its writes: 30 before 27. */
  predicate TimerOf(k: Kind, h: seq<Exit>, v: int, id: u32)
    requires 0 <= v < 2
  {
    || (id == 30 && SetBy(k, h, Private(v, 30)))
    || (id == 27 && SetBy(k, h, Private(v, 27)) && !SetBy(k, h, Private(v, 30)))
  }

  /**
   * Every tick is delivered. At a timer exit of the Linux loop, in any state of any run: if
   * the vCPU that ran has enabled 30, or else 27, then that interrupt is queued for it
   * afterwards or four registers hold others; and no other interrupt, and nothing of the
   * other vCPU, changes. If it has enabled neither, no register changes.
   */
  lemma TickDelivered(s: Smp, p: Pass, id: u32, other: u32)
    requires Inv(Linux, s) && |p.acks| == 4 && Handles(Linux, s) && p.exit == Irq(true)
    ensures var v, l, l' := s.sched.cur, Entered(Linux, s, p).irq.lr, Next(Linux, s, p).irq.lr;
      && l'[1 - v] == l[1 - v]
      && (TimerOf(Linux, s.psci.history, v, id) ==>
            Delivered(l'[v], id) && (other != id ==> (Queued(l'[v], other) <==> Queued(l[v], other))))
      && (!SetBy(Linux, s.psci.history, Private(v, 30)) && !SetBy(Linux, s.psci.history, Private(v, 27)) ==> l'[v] == l[v])
  {
    var v, i := s.sched.cur, Entered(Linux, s, p).irq;
    PassIs(Linux, s, p);
    EnabledExact(Linux, s, Private(v, 30));
    EnabledExact(Linux, s, Private(v, 27));
    TickPlaces(i, v, |s.psci.history|, id, other);
  }

  lemma TickPlaces(i: Irqs, v: int, at: nat, id: u32, other: u32)
    requires |i.lr| == 2 && 0 <= v < 2
    ensures var on30, on27, l' := IrqEnabled(i.bank, v, 30), IrqEnabled(i.bank, v, 27), Tick(Linux, i, v, at).lr;
      && |l'| == 2 && l'[1 - v] == i.lr[1 - v]
      && ((id == 30 && on30) || (id == 27 && on27 && !on30) ==>
            Delivered(l'[v], id) && (other != id ==> (Queued(l'[v], other) <==> Queued(i.lr[v], other))))
      && (!on30 && !on27 ==> l'[v] == i.lr[v])
  {
    InjectDelivers(i.lr[v], id, other);
  }

  /** A pass switches vCPUs exactly when a tick ended it and the second one is up. */
  lemma SwitchExact(k: Kind, s: Smp, p: Pass)
    requires Shaped(s) && |p.acks| == 4 && Handles(k, s)
    ensures Next(k, s, p).sched.cur == if p.exit == Irq(true) && (s.sched.up || s.psci.pending) then 1 - s.sched.cur else s.sched.cur
  {
    PassParts(k, s, p, Entered(k, s, p).sched, Entered(k, s, p).psci);
  }

  /** What the vCPU about to run finds in the registers, before the guest moves any. */
  function OnEntry(k: Kind, s: Smp, p: Pass): (l: seq<Lrs>)
    requires Shaped(s) && |p.acks| == 4
    ensures |l| == 2
  {
    Entered(k, s, p.(acks := [-1, -1, -1, -1])).irq.lr
  }

  /** The guest then moves the registers of the vCPU that runs, and no others. */
  lemma EntryThenGuest(k: Kind, s: Smp, p: Pass)
    requires Shaped(s) && |p.acks| == 4
    ensures var v, l, l' := s.sched.cur, OnEntry(k, s, p), Entered(k, s, p).irq.lr;
      l'[v] == WhileGuestRuns(l[v], p.acks) && l'[1 - v] == l[1 - v]
  {
    var cur, at := s.sched.cur, |s.psci.history|;
    var i := BringUp(s).irq;
    UntouchedRuns(DeliverSgi(if k.Linux? then ForwardKey(i, p.key, at) else i, cur, at).lr[cur]);
  }

  lemma UntouchedRuns(l: Lrs)
    ensures WhileGuestRuns(l, [-1, -1, -1, -1]) == l
  {
    assert WhileGuestRuns(l, [-1, -1, -1, -1]) == l;
  }

  /**
   * Every key is delivered. A key typed before a pass of the Linux loop is in the receive
   * FIFO of the pass, and if the guest's mask has bit 4 and its writes have enabled INTID 33,
   * then vCPU 0 has 33 queued, or four registers busy with others, when it is next entered.
   */
  lemma KeyDelivered(s: Smp, p: Pass)
    requires Inv(Linux, s) && |p.acks| == 4 && !s.sched.stopped && p.key >= 0
    ensures Entered(Linux, s, p).irq.uart == U.Uart(Some(p.key % 0x100), s.irq.uart.imsc)
    ensures Bits.Bit(s.irq.uart.imsc, 4) && SetBy(Linux, s.psci.history, Shared(0, 33)) ==> Delivered(OnEntry(Linux, s, p)[0], 33)
  {
    var i := BringUp(s).irq;
    EnabledExact(Linux, s, Shared(0, 33));
    KeyPlaced(i, p.key, |s.psci.history|);
    var i1 := ForwardKey(i, p.key, |s.psci.history|);
    SgiAfter(i1, s.sched.cur, |s.psci.history|, 33);
    UntouchedRuns(DeliverSgi(i1, s.sched.cur, |s.psci.history|).lr[s.sched.cur]);
  }

  lemma KeyPlaced(i: Irqs, key: int, at: nat)
    requires |i.lr| == 2 && key >= 0
    ensures ForwardKey(i, key, at).uart == U.Uart(Some(key % 0x100), i.uart.imsc)
    ensures Bits.Bit(i.uart.imsc, 4) && SpiEnabled(i.bank, 0, 33) ==> Delivered(ForwardKey(i, key, at).lr[0], 33)
  {
    InjectDelivers(i.lr[0], 33, 0);
  }

  lemma SgiAfter(i: Irqs, cur: int, at: nat, id: u32)
    requires |i.lr| == 2 && 0 <= cur < 2 && id >= 16
    ensures Delivered(i.lr[0], id) ==> Delivered(DeliverSgi(i, cur, at).lr[0], id)
  {
    var sgi := FirstSgi(i.sgi[cur], 0);
    if sgi >= 0 {
      InjectDelivers(i.lr[cur], sgi, id);
    }
  }

  /** A write to ICC_SGI1R posts the SGI whose number is in bits 27:24, to every vCPU but the writer. */
  lemma SgiNumber(k: Kind, s: Smp, p: Pass, id: u32, v: int, b: nat)
    requires Inv(k, s) && |p.acks| == 4 && Handles(k, s) && p.exit.Sysreg? && (k.PsciDemo? || p.exit.crn == 12)
    requires Bits.IsField(id, p.exit.val, 24, 4) && 0 <= v < MAX_VCPUS
    ensures Bits.Bit(Next(k, s, p).irq.sgi[v], b) <==>
            Bits.Bit(Entered(k, s, p).irq.sgi[v], b) || (v != s.sched.cur && b == id)
  {
    PassIs(k, s, p);
    EnteredKeeps(k, s, p);
    var val := p.exit.val;
    SgiField(val, id);
    PostEffect(Entered(k, s, p).irq.sgi, s.sched.cur, id, v, b);
  }

  /** No other exit posts any. */
  lemma SgiOnlyBy(k: Kind, s: Smp, p: Pass)
    requires Shaped(s) && |p.acks| == 4 && Handles(k, s) && !(p.exit.Sysreg? && (k.PsciDemo? || p.exit.crn == 12))
    ensures Next(k, s, p).irq.sgi == Entered(k, s, p).irq.sgi
  {
    PassIs(k, s, p);
    NotPosted(k, Entered(k, s, p).irq, s.sched.cur, p.exit, |s.psci.history|);
  }

  lemma NotPosted(k: Kind, i: Irqs, cur: int, e: Exit, at: nat)
    requires |i.lr| == 2 && 0 <= cur < 2 && !(e.Sysreg? && (k.PsciDemo? || e.crn == 12))
    ensures IrqsAfter(k, i, cur, e, at).sgi == i.sgi
  {
  }

  /** What the guest's stores mean to the Linux loop: through frame f it enables the private interrupts of vCPU f. */
  lemma StoreEnables(h: seq<Exit>, f: nat, ipa: u64, val: u64, n: nat)
    requires f < 2 && n < 32 && Bits.Bit(val % TWO32, n) && ipa == 0x080A_0000 + 0x2_0000 * f + 0x1_0100
    ensures SetBy(Linux, h + [Abort(ipa, false, true, val)], Private(f, n))
  {
    PrivateTouch(0, f, ipa, val % TWO32, Private(f, n));
    StoreTouches(h, ipa, val, Private(f, n));
  }

  /** And through bit 1 of ISENABLER1 the UART's INTID 33. */
  lemma StoreEnablesUart(h: seq<Exit>, val: u64)
    requires Bits.Bit(val % TWO32, 1)
    ensures SetBy(Linux, h + [Abort(0x0800_0104, false, true, val)], Shared(0, 33))
  {
    SharedTouch(0, 1, val % TWO32, Shared(0, 33));
    StoreTouches(h, 0x0800_0104, val, Shared(0, 33));
  }

  lemma StoreTouches(h: seq<Exit>, ipa: u64, val: u64, l: Line)
    requires GoodLine(l) && VgicSpec.Contains(ipa)
    ensures Sets(WordWrite(0, ipa, val % TWO32), l) ==> SetBy(Linux, h + [Abort(ipa, false, true, val)], l)
  {
    var h' := h + [Abort(ipa, false, true, val)];
    var ws := GicWrites(Linux, h');
    assert h'[..|h|] == h && ws == GicWrites(Linux, h) + [WordWrite(0, ipa, val % TWO32)];
    assert ws[|ws| - 1] == WordWrite(0, ipa, val % TWO32);
  }

  lemma SgiField(val: u64, id: u32)
    requires Bits.IsField(id, val, 24, 4)
    ensures id == val / 0x100_0000 % 16 && id < 16
  {
    Bits.Pow2Small();
    Bits.ShrIsDiv(val, 24);
    Bits.LowIsMod(Bits.Shr(val, 24), 4);
    Bits.FieldIs(val, 24, 4);
    Bits.FieldUnique(id, Bits.Low(Bits.Shr(val, 24), 4), val, 24, 4);
  }

  /**
   * CPU_ON starts the second vCPU. A call of function 0xC4000003 or 0x84000003 while it is
   * down (for the demo, by HVC) leads, by the end of the next pass, to a second vCPU that is
   * up, was started with the call's entry point and context, and has idle list registers.
   */
  lemma CpuOnStarts(k: Kind, s: Smp, p: Pass, p': Pass)
    requires Inv(k, s) && |p.acks| == 4 && |p'.acks| == 4 && Handles(k, s) && !s.sched.up && !s.psci.pending
    requires p.exit.Call? && (p.exit.fn == 0xC400_0003 || p.exit.fn == 0x8400_0003) && (k.Linux? || !p.exit.smc)
    ensures var e := Next(k, Next(k, s, p), p');
      e.sched.up && e.psci.boot == Some((p.exit.x2, p.exit.x3)) && e.irq.lr[1] == [0, 0, 0, 0]
  {
    CallPends(k, s, p);
    PendingStarts(k, Next(k, s, p), p');
  }

  lemma CallPends(k: Kind, s: Smp, p: Pass)
    requires Inv(k, s) && |p.acks| == 4 && Handles(k, s) && !s.sched.up && !s.psci.pending
    requires p.exit.Call? && (p.exit.fn == 0xC400_0003 || p.exit.fn == 0x8400_0003) && (k.Linux? || !p.exit.smc)
    ensures var m := Next(k, s, p);
      && m.psci.pending && m.psci.entry == p.exit.x2 && m.psci.ctx == p.exit.x3
      && !m.sched.up && m.sched.cur == 0 && Handles(k, m)
  {
    var c, m := Entered(k, s, p).sched, Entered(k, s, p).psci;
    PassParts(k, s, p, c, m);
    CallEffect(k, c, m, p.exit);
  }

  lemma CallEffect(k: Kind, c: Sched, m: Psci, e: Exit)
    requires |c.halted| == 2 && 0 <= c.cur < 2 && e.Call?
    requires (e.fn == 0xC400_0003 || e.fn == 0x8400_0003) && (k.Linux? || !e.smc)
    ensures SchedAfter(k, c, e) == c
    ensures var m' := PsciAfter(k, m, e); m'.pending && m'.entry == e.x2 && m'.ctx == e.x3
  {
  }

  lemma PendingStarts(k: Kind, s: Smp, p: Pass)
    requires Shaped(s) && |p.acks| == 4 && Handles(k, s) && s.psci.pending && !s.sched.up && s.sched.cur == 0
    ensures var e := Next(k, s, p);
      e.sched.up && e.psci.boot == Some((s.psci.entry, s.psci.ctx)) && e.irq.lr[1] == [0, 0, 0, 0]
  {
    PassIs(k, s, p);
    TurnOfFirst(k, BringUp(s).irq, p, |s.psci.history|);
    ExitOfFirst(k, Entered(k, s, p).irq, p.exit, |s.psci.history|);
  }

  lemma TurnOfFirst(k: Kind, i: Irqs, p: Pass, at: nat)
    requires |i.lr| == 2 && |p.acks| == 4
    ensures GuestTurn(k, i, 0, p, at).lr[1] == i.lr[1]
  {
  }

  lemma ExitOfFirst(k: Kind, i: Irqs, e: Exit, at: nat)
    requires |i.lr| == 2
    ensures |IrqsAfter(k, i, 0, e, at).lr| == 2 && IrqsAfter(k, i, 0, e, at).lr[1] == i.lr[1]
  {
  }

  /** SYSTEM_OFF and SYSTEM_RESET halt the calling vCPU; the Linux loop ends when it would run it again. */
  lemma OffEnds(s: Smp, p: Pass, p': Pass)
    requires Inv(Linux, s) && |p.acks| == 4 && |p'.acks| == 4 && Handles(Linux, s)
    requires p.exit.Call? && (p.exit.fn == 0x8400_0008 || p.exit.fn == 0x8400_0009)
    ensures Next(Linux, s, p).sched.halted == s.sched.halted[s.sched.cur := true]
    ensures Next(Linux, Next(Linux, s, p), p').sched.stopped
  {
    var c, m := Entered(Linux, s, p).sched, Entered(Linux, s, p).psci;
    PassParts(Linux, s, p, c, m);
    OffEffect(c, p.exit);
    HaltedStops(Next(Linux, s, p), p');
  }

  lemma OffEffect(c: Sched, e: Exit)
    requires |c.halted| == 2 && 0 <= c.cur < 2 && e.Call? && (e.fn == 0x8400_0008 || e.fn == 0x8400_0009)
    ensures SchedAfter(Linux, c, e) == c.(halted := c.halted[c.cur := true])
  {
  }

  lemma HaltedStops(s: Smp, p: Pass)
    requires Shaped(s) && |p.acks| == 4 && s.sched.halted[s.sched.cur]
    ensures Next(Linux, s, p).sched.stopped
  {
  }

  // ---- the emulated UART over a run ----

  /** What a pass does to the UART: the key, then the access the guest was stopped at. */
  function UartEvents(s: Smp, p: Pass): seq<U.Event>
    requires Shaped(s)
  {
    if s.sched.stopped then []
    else
      (if p.key >= 0 then [U.Key(p.key)] else []) +
      if Handles(Linux, s) && p.exit.Abort? && 0x0900_0000 <= p.exit.ipa < 0x0900_1000 then
        [if p.exit.write then U.Store(p.exit.ipa - 0x0900_0000, p.exit.val) else U.Load(p.exit.ipa - 0x0900_0000)]
      else []
  }

  function UartTrace(s: Smp, ps: seq<Pass>): seq<U.Event>
    requires Shaped(s) && forall p :: p in ps ==> |p.acks| == 4
  {
    if ps == [] then []
    else
      assert ps[|ps| - 1] in ps;
      UartTrace(s, ps[..|ps| - 1]) + UartEvents(NextAll(Linux, s, ps[..|ps| - 1]), ps[|ps| - 1])
  }

  lemma UartEntered(s: Smp, p: Pass)
    requires Shaped(s) && |p.acks| == 4
    ensures Entered(Linux, s, p).irq.uart == if p.key >= 0 then U.Step(s.irq.uart, U.Key(p.key)) else s.irq.uart
  {
  }

  lemma UartHandled(i: Irqs, cur: int, e: Exit, at: nat)
    requires |i.lr| == 2 && 0 <= cur < 2
    ensures IrqsAfter(Linux, i, cur, e, at).uart ==
      if e.Abort? && 0x0900_0000 <= e.ipa < 0x0900_1000
      then U.Step(i.uart, if e.write then U.Store(e.ipa - 0x0900_0000, e.val) else U.Load(e.ipa - 0x0900_0000))
      else i.uart
  {
  }

  lemma UartStep(s: Smp, p: Pass)
    requires Shaped(s) && |p.acks| == 4
    ensures Next(Linux, s, p).irq.uart == U.After(s.irq.uart, UartEvents(s, p))
  {
    U.AfterFew(s.irq.uart, UartEvents(s, p));
    if !s.sched.stopped {
      var i := Entered(Linux, s, p).irq;
      UartEntered(s, p);
      if Handles(Linux, s) {
        PassUart(s, p, i);
        UartHandled(i, s.sched.cur, p.exit, |s.psci.history|);
      } else {
        HaltUart(s, p, i);
      }
    }
  }

  lemma PassUart(s: Smp, p: Pass, i: Irqs)
    requires Shaped(s) && |p.acks| == 4 && Handles(Linux, s) && i == Entered(Linux, s, p).irq
    ensures Next(Linux, s, p).irq.uart == IrqsAfter(Linux, i, s.sched.cur, p.exit, |s.psci.history|).uart
  {
    PassIs(Linux, s, p);
  }

  lemma HaltUart(s: Smp, p: Pass, i: Irqs)
    requires Shaped(s) && |p.acks| == 4 && !s.sched.stopped && !Handles(Linux, s) && i == Entered(Linux, s, p).irq
    ensures Next(Linux, s, p).irq.uart == i.uart
  {
  }

  /** Over any run the emulated UART is what the keys typed and the guest's own accesses have made of it. */
  lemma {:induction false} UartFollows(s: Smp, ps: seq<Pass>)
    requires Shaped(s) && forall p :: p in ps ==> |p.acks| == 4
    ensures NextAll(Linux, s, ps).irq.uart == U.After(s.irq.uart, UartTrace(s, ps))
    decreases |ps|
  {
    if ps != [] {
      var init, p := ps[..|ps| - 1], ps[|ps| - 1];
      assert p in ps;
      UartFollows(s, init);
      UartStep(NextAll(Linux, s, init), p);
      U.AfterConcat(s.irq.uart, UartTrace(s, init), UartEvents(NextAll(Linux, s, init), p));
    }
  }

  // ---- the loops ----

  class Loop {
    const kind: Kind
    const vttbr: u64
    const secondBase: u64
    var bank: Bank
    var sgi: Pending
    var uart: U.Uart
    var lr: seq<Lrs>
    var cur: int
    var up: bool
    var halted: seq<bool>
    var stopped: bool
    var pending: bool
    var entry: u64
    var ctx: u64
    var second: W.Vcpu?
    ghost var sgis: seq<SgiEvent>
    ghost var grants: seq<Grant>
    ghost var inits: nat
    ghost var ran: seq<Turn>
    ghost var boot: Option<(u64, u64)>
    ghost var bootAt: nat
    ghost var history: seq<Exit>

    ghost function Interrupts(): Irqs
      reads this
    {
      Irqs(bank, sgi, uart, lr, sgis, grants)
    }

    ghost function Scheduling(): Sched
      reads this
    {
      Sched(cur, up, halted, stopped, inits, ran)
    }

    ghost function Mailbox(): Psci
      reads this
    {
      Psci(pending, entry, ctx, boot, bootAt, history)
    }

    ghost function Now(): Smp
      reads this
    {
      Smp(Interrupts(), Scheduling(), Mailbox())
    }

    constructor (kind: Kind, vttbr: u64, secondBase: u64)
      ensures this.kind == kind && Now() == Start()
    {
      this.kind, this.vttbr, this.secondBase, second := kind, vttbr, secondBase, null;
      bank, sgi, uart, lr := ResetBank(), [0, 0, 0, 0], U.Uart(None, 0), [[0, 0, 0, 0], [0, 0, 0, 0]];
      cur, up, halted, stopped := 0, false, [false, false], false;
      pending, entry, ctx := false, 0, 0;
      sgis, grants, inits, ran, boot, bootAt, history := [], [], 0, [], None, 0, [];
    }

    method InjectInto(v: int, id: u32, ghost source: Source)
      requires |lr| == 2 && 0 <= v < 2
      modifies this`lr, this`grants
      ensures Interrupts() == Place(old(Interrupts()), v, id, source, |history|)
    {
      lr := lr[v := Inject(lr[v], id)];
      grants := grants + [Grant(v, id, source, |history|)];
    }

    /** The second vCPU, when it is started, gets the entry point and context of the mailbox. */
    method StartSecondary()
      requires Shaped(Now())
      modifies this`lr, this`up, this`pending, this`second, this`inits, this`boot, this`bootAt
      ensures Now() == BringUp(old(Now()))
      ensures if old(pending) && !old(up)
        then second != null && fresh(second) && second.Valid() && second.vttbr == vttbr && second.id == 1
          && second.Saved() == W.WithX0(W.Initial(old(entry), StackTop(kind)), old(ctx))
        else second == old(second)
    {
      if pending && !up {
        second := W.StartSecondary(secondBase, entry, ctx, StackTop(kind), vttbr);
        lr := lr[1 := [0, 0, 0, 0]];
        up := true;
        pending := false;
        inits, boot, bootAt := inits + 1, Some((entry, ctx)), |history|;
      }
    }

    method TypeKey(key: int)
      requires |lr| == 2
      modifies this`uart, this`lr, this`grants
      ensures Interrupts() == ForwardKey(old(Interrupts()), key, |history|)
    {
      if key >= 0 {
        uart := U.Push(uart, key);
        if U.IrqPending(uart) && SpiEnabled(bank, 0, 33) {
          InjectInto(0, 33, UartLine);
        }
      }
    }

    method PopSgi()
      requires |lr| == 2 && 0 <= cur < 2
      modifies this`sgi, this`sgis, this`lr, this`grants
      ensures Interrupts() == DeliverSgi(old(Interrupts()), cur, |history|)
    {
      var s := FirstSgi(sgi[cur], 0);
      if s >= 0 {
        sgi := sgi[cur := Popped(sgi[cur])];
        sgis := sgis + [Taken(cur, s)];
        InjectInto(cur, s, Sgi);
      }
    }

    /** Keys and SGIs to the list registers, and the guest's run on them. */
    method RunGuest(p: Pass)
      requires |lr| == 2 && 0 <= cur < 2 && |p.acks| == 4
      modifies this`uart, this`lr, this`grants, this`sgi, this`sgis
      ensures Interrupts() == GuestTurn(kind, old(Interrupts()), cur, p, |history|)
    {
      if kind.Linux? {
        TypeKey(p.key);
      }
      PopSgi();
      lr := lr[cur := WhileGuestRuns(lr[cur], p.acks)];
    }

    /** From the top of the loop body to the guest's return. */
    method Enter(p: Pass)
      requires Shaped(Now()) && |p.acks| == 4
      modifies this
      ensures Now() == Entered(kind, old(Now()), p)
    {
      StartSecondary();
      ghost var s1 := Now();
      RunGuest(p);
      ran := ran + [Turn(cur, up)];
      EnteredIs(kind, old(Now()), p, s1, Interrupts());
    }

    method TimerTick()
      requires Shaped(Now())
      modifies this`lr, this`grants, this`cur
      ensures Interrupts() == Tick(kind, old(Interrupts()), old(cur), |history|)
      ensures cur == if up then 1 - old(cur) else old(cur)
    {
      if kind.Linux? {
        if IrqEnabled(bank, cur, 30) {
          InjectInto(cur, 30, Timer);
        } else if IrqEnabled(bank, cur, 27) {
          InjectInto(cur, 27, Timer);
        }
      }
      if up {
        cur := 1 - cur;
      }
    }

    /** A trapped access to the emulated GIC or UART. */
    method Trap(ipa: u64, wide: bool, write: bool, val: u64)
      modifies this`bank, this`uart
      ensures Interrupts() == Access(old(Interrupts()), ipa, wide, write, val)
    {
      if VgicSpec.Contains(ipa) {
        if write {
          ghost var was := bank;
          bank := Write(bank, 0, ipa, val % TWO32);
          if wide {
            bank := Write(bank, 0, ipa + 4, val / TWO32);
          }
          AccessIs(was, 0, ipa, wide, val);
        }
      } else if U.UART_BASE <= ipa < U.UART_BASE + 0x1000 {
        uart := if write then U.AfterWrite(uart, ipa - U.UART_BASE, val) else U.AfterRead(uart, ipa - U.UART_BASE);
      }
    }

    /** A PSCI call passed on by the loop. */
    method PsciCall(fn: u32, x2: u64, x3: u64)
      requires Shaped(Now())
      modifies this`halted, this`entry, this`ctx, this`pending
      ensures halted == if IsOff(fn) then old(halted)[cur := true] else old(halted)
      ensures if IsCpuOn(fn) then entry == x2 && ctx == x3 && pending
              else entry == old(entry) && ctx == old(ctx) && pending == old(pending)
    {
      if IsOff(fn) {
        halted := halted[cur := true];
      } else if IsCpuOn(fn) {
        entry, ctx := x2, x3;
        pending := true;
      }
    }

    /** A write to ICC_SGI1R, or another trapped system register. */
    method TrapSysreg(crn: int, val: u64)
      requires 0 <= cur < 2 && |lr| == 2
      modifies this`sgi, this`sgis
      ensures Interrupts() == IrqsAfter(kind, old(Interrupts()), cur, Sysreg(crn, val), |history|)
    {
      if kind.PsciDemo? || crn == 12 {
        sgi := Post(sgi, cur, val / 0x100_0000 % 16);
        sgis := sgis + [Sent(cur, val / 0x100_0000 % 16)];
      }
    }

    /** The dispatch on the exit. */
    method Dispatch(e: Exit)
      requires Shaped(Now())
      modifies this`bank, this`uart, this`lr, this`grants, this`sgi, this`sgis, this`cur, this`halted, this`stopped,
               this`entry, this`ctx, this`pending
      ensures Interrupts() == IrqsAfter(kind, old(Interrupts()), old(cur), e, |history|)
      ensures Scheduling() == SchedAfter(kind, old(Scheduling()), e)
      ensures if AsksCpuOn(kind, e) then entry == e.x2 && ctx == e.x3 && pending
              else entry == old(entry) && ctx == old(ctx) && pending == old(pending)
    {
      match e {
        case Irq(timer) =>
          if timer {
            TimerTick();
          }
        case Abort(ipa, wide, write, val) =>
          if kind.PsciDemo? {
            stopped := true;
          } else {
            Trap(ipa, wide, write, val);
          }
        case Sysreg(crn, val) => TrapSysreg(crn, val);
        case Call(_, fn, x2, x3) =>
          if Conducted(kind, e) {
            PsciCall(fn, x2, x3);
          } else {
            stopped := true;
          }
        case Unknown => stopped := true;
      }
    }

    method Handle(e: Exit)
      requires Shaped(Now())
      modifies this
      ensures Now() == Handled(kind, old(Now()), e)
    {
      Dispatch(e);
      history := history + [e];
    }

    /** Any run of the loop. */
    method Run(passes: seq<Pass>)
      requires Shaped(Now()) && forall p :: p in passes ==> |p.acks| == 4
      modifies this
      ensures Now() == NextAll(kind, old(Now()), passes)
    {
      for n := 0 to |passes|
        invariant Shaped(Now()) && Now() == NextAll(kind, old(Now()), passes[..n])
      {
        assert passes[n] in passes && passes[..n + 1][..n] == passes[..n];
        OnePass(passes[n]);
      }
      assert passes[..|passes|] == passes;
    }

    /** One pass of the loop body, unless the loop has ended. */
    method OnePass(p: Pass)
      requires Shaped(Now()) && |p.acks| == 4
      modifies this
      ensures Now() == Next(kind, old(Now()), p)
    {
      if !stopped {
        Enter(p);
        if kind.Linux? && halted[cur] {
          stopped := true;
        } else {
          Handle(p.exit);
        }
      }
    }
  }
}
