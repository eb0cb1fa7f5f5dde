/**
 * The world switch: one physical register bank multiplexed over many vCPUs, with
 * the saves and restores in the order vcpu.c, world.S and vectors.S make them.
 */
module WorldSwitch {
  import opened Words

  type u128 = x: int | 0 <= x < 0x1_0000_0000_0000_0000_0000_0000_0000_0000

  /** The EL1 and EL0 system registers vcpu.c saves and restores. */
  datatype El1 = El1(sctlr: u64, cpacr: u64, ttbr0: u64, ttbr1: u64, tcr: u64, mair: u64, amair: u64, vbar: u64,
                     contextidr: u64, spEl1: u64, elr: u64, spsr: u64, esr: u64, far: u64,
                     tpidrEl0: u64, tpidrroEl0: u64, tpidrEl1: u64)

  /** Everything a guest can see of its processor that is saved across switches. */
  datatype Context = Context(x: seq<u64>, spEl0: u64, pc: u64, pstate: u64, q: seq<u128>, fpsr: u64, fpcr: u64,
                             el1: El1, lr: seq<u64>, vmcr: u64, ap1r0: u64)

  predicate GoodContext(c: Context) { |c.x| == 31 && |c.q| == 32 && |c.lr| == 4 }

  type Ctx = c: Context | GoodContext(c) ghost witness
    Context(seq(31, i => 0), 0, 0, 0, seq(32, i => 0), 0, 0,
            El1(0, 0, 0, 0, 0, 0, 0, 0, 0, 0, 0, 0, 0, 0, 0, 0, 0), [0, 0, 0, 0], 0, 0)

  lemma Eta(c: Context)
    ensures c == Context(c.x, c.spEl0, c.pc, c.pstate, c.q, c.fpsr, c.fpcr, c.el1, c.lr, c.vmcr, c.ap1r0)
  {
  }

  /** How the guest came back: the vector taken and the syndrome registers. */
  datatype Exit = Exit(reason: u64, esr: u64, far: u64, hpfar: u64)

  /** A stretch of guest execution: any function of the context and of the stage-2 root and affinity it runs under. */
  type Guest = (Ctx, u64, u64) -> (Ctx, Exit)

  class Vcpu {
    const base: u64   // the record's own address
    var x: seq<u64>
    var spEl0: u64
    var pc: u64
    var pstate: u64
    var hypSp: int
    var exitReason: u64
    var exitEsr: u64
    var exitFar: u64
    var exitHpfar: u64
    var q: seq<u128>
    var fpsr: u64
    var fpcr: u64
    var el1: El1
    var lr: seq<u64>
    var vmcr: u64
    var ap1r0: u64
    var vttbr: u64
    var vmpidr: u64
    var id: int
    var halted: bool

    ghost predicate Valid()
      reads this
    {
      |x| == 31 && |q| == 32 && |lr| == 4
    }

    function Saved(): Ctx
      requires Valid()
      reads this
    {
      Context(x, spEl0, pc, pstate, q, fpsr, fpcr, el1, lr, vmcr, ap1r0)
    }

    ghost function LastExit(): Exit
      reads this
    {
      Exit(exitReason, exitEsr, exitFar, exitHpfar)
    }

    /** vcpu_init */
    constructor (base: u64, entry: u64, spEl1: u64, vttbr: u64, id: u8)
      ensures Valid() && Saved() == Initial(entry, spEl1) && this.vttbr == vttbr
      ensures pc == entry && pstate == 0x3C5 && el1.spEl1 == spEl1 && el1.sctlr == 0x30D0_0800
      ensures forall i :: 0 <= i < 31 ==> x[i] == 0
      ensures vmpidr == 0x8000_0000 + id && this.id == id && !halted
    {
      this.base := base;
      x, q, lr := seq(31, i => 0), seq(32, i => 0), [0, 0, 0, 0];
      spEl0, hypSp, exitReason, exitEsr, exitFar, exitHpfar, fpsr, fpcr, vmcr, ap1r0 := 0, 0, 0, 0, 0, 0, 0, 0, 0, 0;
      pc := entry;
      pstate := 0x3C5;
      el1 := El1(0x30D0_0800, 0, 0, 0, 0, 0, 0, 0, 0, spEl1, 0, 0, 0, 0, 0, 0, 0);
      this.vttbr := vttbr;
      vmpidr := 0x8000_0000 + id;
      this.id := id;
      halted := false;
    }
  }

  /** A vCPU about to start at entry: EL1h, interrupts masked, MMU off, everything else zero. */
  function Initial(entry: u64, spEl1: u64): Ctx {
    Context(seq(31, i => 0), 0, entry, 0x3C5, seq(32, i => 0), 0, 0,
            El1(0x30D0_0800, 0, 0, 0, 0, 0, 0, 0, 0, spEl1, 0, 0, 0, 0, 0, 0, 0),
            [0, 0, 0, 0], 0, 0)
  }

  /** The same context with x0 set. */
  function WithX0(c: Ctx, v: u64): Ctx {
    Context(c.x[0 := v], c.spEl0, c.pc, c.pstate, c.q, c.fpsr, c.fpcr, c.el1, c.lr, c.vmcr, c.ap1r0)
  }

  /** A secondary vCPU as CPU_ON asks for it: vcpu_init, then the context argument in x0. */
  method StartSecondary(base: u64, entry: u64, ctx: u64, spEl1: u64, vttbr: u64) returns (v: Vcpu)
    ensures fresh(v) && v.Valid() && v.Saved() == WithX0(Initial(entry, spEl1), ctx)
    ensures v.vttbr == vttbr && v.id == 1 && v.vmpidr == 0x8000_0001 && !v.halted
  {
    v := new Vcpu(base, entry, spEl1, vttbr, 1);
    ghost var c := v.Saved();
    v.x := v.x[0 := ctx];
    Eta(c);
  }

  /** The physical processor at EL2, and the EL2 stack. */
  class Core {
    var x: seq<u64>
    var sp: int
    var stack: map<int, u64>
    var tpidr: Vcpu?
    var spEl0: u64
    var elr: u64
    var spsr: u64
    var esr: u64
    var far: u64
    var hpfar: u64
    var q: seq<u128>
    var fpsr: u64
    var fpcr: u64
    var el1: El1
    var lr: seq<u64>
    var vmcr: u64
    var ap1r0: u64
    var vttbr: u64
    var vmpidr: u64

    ghost predicate Valid()
      reads this
    {
      |x| == 31 && |q| == 32 && |lr| == 4
    }

    /** What the guest would see if it ran now. */
    function Live(): Ctx
      requires Valid()
      reads this
    {
      Context(x, spEl0, elr, spsr, q, fpsr, fpcr, el1, lr, vmcr, ap1r0)
    }

    /** Put a whole context into the live registers. */
    method Load(c: Ctx)
      modifies this`x, this`spEl0, this`elr, this`spsr, this`q, this`fpsr, this`fpcr, this`el1, this`lr, this`vmcr, this`ap1r0
      ensures Valid() && Live() == c
    {
      x, spEl0, elr, spsr, q, fpsr, fpcr := c.x, c.spEl0, c.pc, c.pstate, c.q, c.fpsr, c.fpcr;
      el1, lr, vmcr, ap1r0 := c.el1, c.lr, c.vmcr, c.ap1r0;
      Eta(c);
    }

    /** eret, the guest's execution, and the exception back to EL2: hardware, not hypervisor code. */
    method Run(guest: Guest) returns (reason: u64)
      requires Valid()
      modifies this`x, this`spEl0, this`elr, this`spsr, this`q, this`fpsr, this`fpcr, this`el1, this`lr, this`vmcr,
               this`ap1r0, this`esr, this`far, this`hpfar
      ensures Valid()
      ensures Live() == guest(old(Live()), vttbr, vmpidr).0
      ensures Exit(reason, esr, far, hpfar) == guest(old(Live()), vttbr, vmpidr).1
    {
      var r := guest(Live(), vttbr, vmpidr);
      Load(r.0);
      esr, far, hpfar := r.1.esr, r.1.far, r.1.hpfar;
      reason := r.1.reason;
    }
  }

  method SaveEl1(v: Vcpu, core: Core)
    modifies v`el1
    ensures v.el1 == core.el1
  {
    v.el1 := v.el1.(sctlr := core.el1.sctlr);
    v.el1 := v.el1.(cpacr := core.el1.cpacr);
    v.el1 := v.el1.(ttbr0 := core.el1.ttbr0);
    v.el1 := v.el1.(ttbr1 := core.el1.ttbr1);
    v.el1 := v.el1.(tcr := core.el1.tcr);
    v.el1 := v.el1.(mair := core.el1.mair);
    v.el1 := v.el1.(amair := core.el1.amair);
    v.el1 := v.el1.(vbar := core.el1.vbar);
    v.el1 := v.el1.(contextidr := core.el1.contextidr);
    v.el1 := v.el1.(spEl1 := core.el1.spEl1);
    v.el1 := v.el1.(elr := core.el1.elr);
    v.el1 := v.el1.(spsr := core.el1.spsr);
    v.el1 := v.el1.(esr := core.el1.esr);
    v.el1 := v.el1.(far := core.el1.far);
    v.el1 := v.el1.(tpidrEl0 := core.el1.tpidrEl0);
    v.el1 := v.el1.(tpidrroEl0 := core.el1.tpidrroEl0);
    v.el1 := v.el1.(tpidrEl1 := core.el1.tpidrEl1);
  }

  method RestoreEl1(v: Vcpu, core: Core)
    modifies core`el1
    ensures core.el1 == v.el1
  {
    core.el1 := core.el1.(sctlr := v.el1.sctlr);
    core.el1 := core.el1.(cpacr := v.el1.cpacr);
    core.el1 := core.el1.(ttbr0 := v.el1.ttbr0);
    core.el1 := core.el1.(ttbr1 := v.el1.ttbr1);
    core.el1 := core.el1.(tcr := v.el1.tcr);
    core.el1 := core.el1.(mair := v.el1.mair);
    core.el1 := core.el1.(amair := v.el1.amair);
    core.el1 := core.el1.(vbar := v.el1.vbar);
    core.el1 := core.el1.(contextidr := v.el1.contextidr);
    core.el1 := core.el1.(spEl1 := v.el1.spEl1);
    core.el1 := core.el1.(elr := v.el1.elr);
    core.el1 := core.el1.(spsr := v.el1.spsr);
    core.el1 := core.el1.(esr := v.el1.esr);
    core.el1 := core.el1.(far := v.el1.far);
    core.el1 := core.el1.(tpidrEl0 := v.el1.tpidrEl0);
    core.el1 := core.el1.(tpidrroEl0 := v.el1.tpidrroEl0);
    core.el1 := core.el1.(tpidrEl1 := v.el1.tpidrEl1);
  }

  predicate At(stack: map<int, u64>, a: int, v: u64) { a in stack && stack[a] == v }

  /** The frame __guest_enter pushes: x19..x30 at sp. */
  predicate FrameAt(stack: map<int, u64>, sp: int, x: seq<u64>)
    requires |x| == 31
  {
    forall i :: 19 <= i < 31 ==> At(stack, sp + 8 * (i - 19), x[i])
  }

  method PushCalleeSaved(core: Core)
    requires core.Valid()
    modifies core`sp, core`stack
    ensures core.sp == old(core.sp) - 96 && FrameAt(core.stack, core.sp, core.x)
  {
    var stack := core.stack;
    core.sp := core.sp - 96;
    stack := stack[core.sp + 0 := core.x[19]][core.sp + 8 := core.x[20]];
    stack := stack[core.sp + 16 := core.x[21]][core.sp + 24 := core.x[22]];
    stack := stack[core.sp + 32 := core.x[23]][core.sp + 40 := core.x[24]];
    stack := stack[core.sp + 48 := core.x[25]][core.sp + 56 := core.x[26]];
    stack := stack[core.sp + 64 := core.x[27]][core.sp + 72 := core.x[28]];
    stack := stack[core.sp + 80 := core.x[29]][core.sp + 88 := core.x[30]];
    core.stack := stack;
  }

  method PopCalleeSaved(core: Core, ghost frame: seq<u64>)
    requires core.Valid() && |frame| == 31 && FrameAt(core.stack, core.sp, frame)
    modifies core`sp, core`x
    ensures core.Valid() && core.sp == old(core.sp) + 96
    ensures forall i :: 19 <= i < 31 ==> core.x[i] == frame[i]
  {
    assert At(core.stack, core.sp + 0, frame[19])
      && At(core.stack, core.sp + 8, frame[20])
      && At(core.stack, core.sp + 16, frame[21])
      && At(core.stack, core.sp + 24, frame[22])
      && At(core.stack, core.sp + 32, frame[23])
      && At(core.stack, core.sp + 40, frame[24])
      && At(core.stack, core.sp + 48, frame[25])
      && At(core.stack, core.sp + 56, frame[26])
      && At(core.stack, core.sp + 64, frame[27])
      && At(core.stack, core.sp + 72, frame[28])
      && At(core.stack, core.sp + 80, frame[29])
      && At(core.stack, core.sp + 88, frame[30]);
    var x := core.x;
    x := x[19 := core.stack[core.sp + 0]][20 := core.stack[core.sp + 8]];
    x := x[21 := core.stack[core.sp + 16]][22 := core.stack[core.sp + 24]];
    x := x[23 := core.stack[core.sp + 32]][24 := core.stack[core.sp + 40]];
    x := x[25 := core.stack[core.sp + 48]][26 := core.stack[core.sp + 56]];
    x := x[27 := core.stack[core.sp + 64]][28 := core.stack[core.sp + 72]];
    x := x[29 := core.stack[core.sp + 80]][30 := core.stack[core.sp + 88]];
    core.x := x;
    core.sp := core.sp + 96;
  }

  method LoadGprs(v: Vcpu, core: Core)
    requires v.Valid() && core.Valid()
    modifies core`x
    ensures core.x == v.x
  {
    var x := core.x;
    x := x[1 := v.x[1]];
    x := x[2 := v.x[2]][3 := v.x[3]];
    x := x[4 := v.x[4]][5 := v.x[5]];
    x := x[6 := v.x[6]][7 := v.x[7]];
    x := x[8 := v.x[8]][9 := v.x[9]];
    x := x[10 := v.x[10]][11 := v.x[11]];
    x := x[12 := v.x[12]][13 := v.x[13]];
    x := x[14 := v.x[14]][15 := v.x[15]];
    x := x[16 := v.x[16]][17 := v.x[17]];
    x := x[18 := v.x[18]][19 := v.x[19]];
    x := x[20 := v.x[20]][21 := v.x[21]];
    x := x[22 := v.x[22]][23 := v.x[23]];
    x := x[24 := v.x[24]][25 := v.x[25]];
    x := x[26 := v.x[26]][27 := v.x[27]];
    x := x[28 := v.x[28]][29 := v.x[29]];
    x := x[30 := v.x[30]];
    x := x[0 := v.x[0]];
    core.x := x;
  }

  /** x2..x30 from the registers, x0 and x1 from the slot the vector stub pushed. */
  method StoreGprs(v: Vcpu, core: Core, ghost guest: seq<u64>)
    requires v.Valid() && core.Valid() && |guest| == 31 && (forall i :: 2 <= i < 31 ==> core.x[i] == guest[i])
    requires At(core.stack, core.sp, guest[0]) && At(core.stack, core.sp + 8, guest[1])
    modifies v`x, core`x
    ensures v.x == guest && core.Valid()
  {
    var x := v.x;
    x := x[2 := core.x[2]][3 := core.x[3]];
    x := x[4 := core.x[4]][5 := core.x[5]];
    x := x[6 := core.x[6]][7 := core.x[7]];
    x := x[8 := core.x[8]][9 := core.x[9]];
    x := x[10 := core.x[10]][11 := core.x[11]];
    x := x[12 := core.x[12]][13 := core.x[13]];
    x := x[14 := core.x[14]][15 := core.x[15]];
    x := x[16 := core.x[16]][17 := core.x[17]];
    x := x[18 := core.x[18]][19 := core.x[19]];
    x := x[20 := core.x[20]][21 := core.x[21]];
    x := x[22 := core.x[22]][23 := core.x[23]];
    x := x[24 := core.x[24]][25 := core.x[25]];
    x := x[26 := core.x[26]][27 := core.x[27]];
    x := x[28 := core.x[28]][29 := core.x[29]];
    x := x[30 := core.x[30]];
    core.x := core.x[2 := core.stack[core.sp]][3 := core.stack[core.sp + 8]];
    x := x[0 := core.x[2]];
    x := x[1 := core.x[3]];
    v.x := x;
  }

  method LoadFp(v: Vcpu, core: Core)
    requires v.Valid() && core.Valid()
    modifies core`q, core`fpsr, core`fpcr
    ensures core.q == v.q && core.fpsr == v.fpsr && core.fpcr == v.fpcr
  {
    var q := core.q;
    q := q[0 := v.q[0]][1 := v.q[1]];
    q := q[2 := v.q[2]][3 := v.q[3]];
    q := q[4 := v.q[4]][5 := v.q[5]];
    q := q[6 := v.q[6]][7 := v.q[7]];
    q := q[8 := v.q[8]][9 := v.q[9]];
    q := q[10 := v.q[10]][11 := v.q[11]];
    q := q[12 := v.q[12]][13 := v.q[13]];
    q := q[14 := v.q[14]][15 := v.q[15]];
    q := q[16 := v.q[16]][17 := v.q[17]];
    q := q[18 := v.q[18]][19 := v.q[19]];
    q := q[20 := v.q[20]][21 := v.q[21]];
    q := q[22 := v.q[22]][23 := v.q[23]];
    q := q[24 := v.q[24]][25 := v.q[25]];
    q := q[26 := v.q[26]][27 := v.q[27]];
    q := q[28 := v.q[28]][29 := v.q[29]];
    q := q[30 := v.q[30]][31 := v.q[31]];
    core.q := q;
    core.fpsr := v.fpsr;
    core.fpcr := v.fpcr;
  }

  method StoreFp(v: Vcpu, core: Core)
    requires v.Valid() && core.Valid()
    modifies v`q, v`fpsr, v`fpcr
    ensures v.q == core.q && v.fpsr == core.fpsr && v.fpcr == core.fpcr
  {
    var q := v.q;
    q := q[0 := core.q[0]][1 := core.q[1]];
    q := q[2 := core.q[2]][3 := core.q[3]];
    q := q[4 := core.q[4]][5 := core.q[5]];
    q := q[6 := core.q[6]][7 := core.q[7]];
    q := q[8 := core.q[8]][9 := core.q[9]];
    q := q[10 := core.q[10]][11 := core.q[11]];
    q := q[12 := core.q[12]][13 := core.q[13]];
    q := q[14 := core.q[14]][15 := core.q[15]];
    q := q[16 := core.q[16]][17 := core.q[17]];
    q := q[18 := core.q[18]][19 := core.q[19]];
    q := q[20 := core.q[20]][21 := core.q[21]];
    q := q[22 := core.q[22]][23 := core.q[23]];
    q := q[24 := core.q[24]][25 := core.q[25]];
    q := q[26 := core.q[26]][27 := core.q[27]];
    q := q[28 := core.q[28]][29 := core.q[29]];
    q := q[30 := core.q[30]][31 := core.q[31]];
    v.q := q;
    v.fpsr := core.fpsr;
    v.fpcr := core.fpcr;
  }

  /** __guest_enter, up to the eret. */
  method GuestEnter(v: Vcpu, core: Core)
    requires v.Valid() && core.Valid()
    modifies core`sp, core`stack, core`tpidr, core`elr, core`spsr, core`spEl0, core`q, core`fpsr, core`fpcr, core`x, v`hypSp
    ensures core.Valid() && core.Live() == v.Saved().(el1 := core.el1, lr := core.lr, vmcr := core.vmcr, ap1r0 := core.ap1r0)
    ensures core.tpidr == v && v.hypSp == core.sp == old(core.sp) - 96 && FrameAt(core.stack, core.sp, old(core.x))
  {
    PushCalleeSaved(core);
    core.tpidr := v;
    v.hypSp := core.sp;
    core.elr := v.pc;
    core.spsr := v.pstate;
    core.spEl0 := v.spEl0;
    LoadFp(v, core);
    LoadGprs(v, core);
  }

  /** The vector stub: guest x0 and x1 to the stack, then the vCPU's address and the vector in their place. */
  method VectorStub(v: Vcpu, core: Core, reason: u64, ghost frame: seq<u64>)
    requires core.Valid() && |frame| == 31 && FrameAt(core.stack, core.sp, frame)
    modifies core`sp, core`stack, core`x, v`exitReason
    ensures core.Valid() && core.sp == old(core.sp) - 16 && v.exitReason == reason
    ensures At(core.stack, core.sp, old(core.x)[0]) && At(core.stack, core.sp + 8, old(core.x)[1])
    ensures core.x == old(core.x)[0 := v.base][1 := reason] && FrameAt(core.stack, old(core.sp), frame)
  {
    core.sp := core.sp - 16;
    core.stack := core.stack[core.sp := core.x[0]][core.sp + 8 := core.x[1]];
    core.x := core.x[0 := v.base];
    core.x := core.x[1 := reason];
    v.exitReason := reason;
  }

  /** __guest_exit, back to the caller of __guest_enter. */
  method GuestExit(v: Vcpu, core: Core, ghost guest: seq<u64>, ghost frame: seq<u64>)
    requires v.Valid() && core.Valid() && core.tpidr == v
    requires |guest| == 31 && forall i :: 2 <= i < 31 ==> core.x[i] == guest[i]
    requires At(core.stack, core.sp, guest[0]) && At(core.stack, core.sp + 8, guest[1])
    requires |frame| == 31 && FrameAt(core.stack, v.hypSp, frame)
    modifies core`sp, core`x, v`x, v`spEl0, v`pc, v`pstate, v`exitEsr, v`exitFar, v`exitHpfar, v`q, v`fpsr, v`fpcr
    ensures v.Valid() && core.Valid()
    ensures v.Saved() == old(core.Live()).(x := guest, el1 := v.el1, lr := v.lr, vmcr := v.vmcr, ap1r0 := v.ap1r0)
    ensures v.exitEsr == core.esr && v.exitFar == core.far && v.exitHpfar == core.hpfar
    ensures core.sp == v.hypSp + 96 && forall i :: 19 <= i < 31 ==> core.x[i] == frame[i]
  {
    StoreGprs(v, core, guest);
    v.spEl0 := core.spEl0;
    v.pc := core.elr;
    v.pstate := core.spsr;
    v.exitEsr := core.esr;
    v.exitFar := core.far;
    v.exitHpfar := core.hpfar;
    StoreFp(v, core);
    core.sp := v.hypSp;
    PopCalleeSaved(core, frame);
  }

  /** ICH_VMCR, ICH_AP1R0 and the list registers to the hardware. */
  method RestoreVgic(v: Vcpu, core: Core)
    requires v.Valid() && core.Valid()
    modifies core`vmcr, core`ap1r0, core`lr
    ensures core.vmcr == v.vmcr && core.ap1r0 == v.ap1r0 && core.lr == v.lr
  {
    core.vmcr := v.vmcr;
    core.ap1r0 := v.ap1r0;
    core.lr := core.lr[0 := v.lr[0]];
    core.lr := core.lr[1 := v.lr[1]];
    core.lr := core.lr[2 := v.lr[2]];
    core.lr := core.lr[3 := v.lr[3]];
  }

  method SaveVgic(v: Vcpu, core: Core)
    requires v.Valid() && core.Valid()
    modifies v`vmcr, v`ap1r0, v`lr
    ensures v.vmcr == core.vmcr && v.ap1r0 == core.ap1r0 && v.lr == core.lr
  {
    v.lr := v.lr[0 := core.lr[0]];
    v.lr := v.lr[1 := core.lr[1]];
    v.lr := v.lr[2 := core.lr[2]];
    v.lr := v.lr[3 := core.lr[3]];
    v.vmcr := core.vmcr;
    v.ap1r0 := core.ap1r0;
  }

  /** The first half of vcpu_run_once: the processor holds exactly the vCPU's saved context. */
  method SwitchIn(v: Vcpu, core: Core)
    requires v.Valid() && core.Valid()
    modifies core, v`hypSp
    ensures core.Valid() && core.Live() == v.Saved() && core.vttbr == v.vttbr && core.vmpidr == v.vmpidr
    ensures core.tpidr == v && v.hypSp == core.sp == old(core.sp) - 96 && FrameAt(core.stack, core.sp, old(core.x))
  {
    RestoreEl1(v, core);
    core.vttbr := v.vttbr;
    core.vmpidr := v.vmpidr;
    RestoreVgic(v, core);
    GuestEnter(v, core);
  }

  /** The second half: the vCPU's saved context is exactly what the processor held. */
  method SwitchOut(v: Vcpu, core: Core, reason: u64, ghost frame: seq<u64>)
    requires v.Valid() && core.Valid() && core.tpidr == v && v.hypSp == core.sp
    requires |frame| == 31 && FrameAt(core.stack, core.sp, frame)
    modifies core`sp, core`stack, core`x, v`x, v`spEl0, v`pc, v`pstate, v`exitReason, v`exitEsr, v`exitFar, v`exitHpfar,
             v`q, v`fpsr, v`fpcr, v`el1, v`lr, v`vmcr, v`ap1r0
    ensures v.Valid() && core.Valid() && v.Saved() == old(core.Live())
    ensures v.LastExit() == Exit(reason, core.esr, core.far, core.hpfar)
    ensures core.sp == old(core.sp) + 96 && forall i :: 19 <= i < 31 ==> core.x[i] == frame[i]
  {
    VectorStub(v, core, reason, frame);
    GuestExit(v, core, old(core.x), frame);
    SaveVgic(v, core);
    SaveEl1(v, core);
  }

  /**
   * vcpu_run_once. Whatever the processor held before, the guest runs on exactly
   * its saved context, exactly what it leaves is saved, and the hypervisor gets
   * its stack pointer and callee-saved registers back.
   */
  method RunOnce(v: Vcpu, core: Core, guest: Guest)
    requires v.Valid() && core.Valid()
    modifies core, v`x, v`spEl0, v`pc, v`pstate, v`hypSp, v`exitReason, v`exitEsr, v`exitFar, v`exitHpfar, v`q, v`fpsr, v`fpcr,
             v`el1, v`lr, v`vmcr, v`ap1r0
    ensures v.Valid() && core.Valid()
    ensures v.Saved() == guest(old(v.Saved()), v.vttbr, v.vmpidr).0
    ensures v.LastExit() == guest(old(v.Saved()), v.vttbr, v.vmpidr).1
    ensures core.sp == old(core.sp) && forall i :: 19 <= i < 31 ==> core.x[i] == old(core.x[i])
  {
    SwitchIn(v, core);
    var reason := core.Run(guest);
    SwitchOut(v, core, reason, old(core.x));
  }

  // ---- any interleaving of many vCPUs on one processor ----

  /** The hypervisor lets a vCPU run, or edits its saved context (a register result, a PC step, an injection). */
  datatype Action = Run(vcpu: int, guest: Guest) | Edit(vcpu: int, edit: Ctx -> Ctx)

  /** How vCPU i's context evolves when only its own actions happen, on a processor of its own. */
  ghost function Alone(c: Ctx, script: seq<Action>, i: int, vttbr: u64, vmpidr: u64): Ctx {
    if script == [] then c
    else
      var a, before := script[|script| - 1], Alone(c, script[..|script| - 1], i, vttbr, vmpidr);
      if a.vcpu != i then before
      else match a { case Run(_, guest) => guest(before, vttbr, vmpidr).0 case Edit(_, edit) => edit(before) }
  }

  function OwnActions(script: seq<Action>, i: int): seq<Action> {
    if script == [] then []
    else OwnActions(script[..|script| - 1], i) + if script[|script| - 1].vcpu == i then [script[|script| - 1]] else []
  }

  /** The other vCPUs' actions do not enter into it at all. */
  lemma {:induction false} AloneIsOwn(c: Ctx, script: seq<Action>, i: int, vttbr: u64, vmpidr: u64)
    ensures Alone(c, script, i, vttbr, vmpidr) == Alone(c, OwnActions(script, i), i, vttbr, vmpidr)
    decreases |script|
  {
    if script != [] {
      var a, pre := script[|script| - 1], script[..|script| - 1];
      AloneIsOwn(c, pre, i, vttbr, vmpidr);
      if a.vcpu == i {
        var own := OwnActions(script, i);
        assert own[..|own| - 1] == OwnActions(pre, i) && own[|own| - 1] == a;
      } else {
        assert OwnActions(script, i) == OwnActions(pre, i);
      }
    }
  }

  method ApplyEdit(v: Vcpu, edit: Ctx -> Ctx)
    requires v.Valid()
    modifies v`x, v`spEl0, v`pc, v`pstate, v`q, v`fpsr, v`fpcr, v`el1, v`lr, v`vmcr, v`ap1r0
    ensures v.Valid() && v.Saved() == edit(old(v.Saved()))
  {
    var c := edit(v.Saved());
    v.x, v.spEl0, v.pc, v.pstate, v.q, v.fpsr, v.fpcr := c.x, c.spEl0, c.pc, c.pstate, c.q, c.fpsr, c.fpcr;
    v.el1, v.lr, v.vmcr, v.ap1r0 := c.el1, c.lr, c.vmcr, c.ap1r0;
  }

  /**
   * Sharing is invisible: for every interleaving, every guest behaviour and every
   * edit, each vCPU's saved context is the one it would have alone.
   */
  method Schedule(core: Core, vs: seq<Vcpu>, script: seq<Action>)
    requires core.Valid() && (forall v :: v in vs ==> v.Valid())
    requires forall i, j :: 0 <= i < j < |vs| ==> vs[i] != vs[j]
    requires forall a :: a in script ==> 0 <= a.vcpu < |vs|
    modifies core, vs
    ensures forall v :: v in vs ==> v.Valid()
    ensures forall i :: 0 <= i < |vs| ==>
              vs[i].Saved() == Alone(old(vs[i].Saved()), script, i, old(vs[i].vttbr), old(vs[i].vmpidr))
    ensures core.Valid() && core.sp == old(core.sp) && forall k :: 19 <= k < 31 ==> core.x[k] == old(core.x[k])
  {
    for n := 0 to |script|
      invariant core.Valid() && core.sp == old(core.sp) && forall k :: 19 <= k < 31 ==> core.x[k] == old(core.x[k])
      invariant forall v :: v in vs ==> v.Valid()
      invariant forall i :: 0 <= i < |vs| ==> vs[i].vttbr == old(vs[i].vttbr) && vs[i].vmpidr == old(vs[i].vmpidr)
      invariant forall i :: 0 <= i < |vs| ==>
        vs[i].Saved() == Alone(old(vs[i].Saved()), script[..n], i, old(vs[i].vttbr), old(vs[i].vmpidr))
    {
      var a := script[n];
      assert a in script && vs[a.vcpu] in vs;
      assert script[..n + 1][..n] == script[..n];
      match a {
        case Run(i, guest) => RunOnce(vs[i], core, guest);
        case Edit(i, edit) => ApplyEdit(vs[i], edit);
      }
    }
    assert script[..|script|] == script;
  }
}
