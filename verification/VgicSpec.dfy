/** The software GICv3: distributor and redistributor registers of every VM. */
module VgicSpec {
  import opened Words
  import opened Bits

  const GICD_BASE := 0x0800_0000
  const GICD_SIZE := 0x1_0000
  const GICR_BASE := 0x080A_0000
  const STRIDE := 0x2_0000
  const MAX_VCPUS := 4
  const SGI_FRAME := 0x1_0000

  /** struct vgic_state. */
  datatype Gic = Gic(ctlr: u32, enabled: u32, group: u32, spi: seq<u32>)

  type Bank = vg: seq<Gic> | |vg| == MAX_VCPUS && forall g :: g in vg ==> |g.spi| == 8
    witness seq(MAX_VCPUS, i => Gic(0, 0, 0, [0, 0, 0, 0, 0, 0, 0, 0]))

  function ResetBank(): Bank { seq(MAX_VCPUS, i => Gic(0, 0, 0, [0, 0, 0, 0, 0, 0, 0, 0])) }

  predicate Contains(ipa: u64) {
    GICD_BASE <= ipa < GICD_BASE + GICD_SIZE || GICR_BASE <= ipa < GICR_BASE + MAX_VCPUS * STRIDE
  }

  predicate IsFrame(ipa: u64) { ipa >= GICR_BASE }

  function Frame(ipa: u64): nat
    requires IsFrame(ipa)
  {
    (ipa - GICR_BASE) / STRIDE
  }

  function FrameOffset(ipa: u64): nat
    requires IsFrame(ipa)
  {
    (ipa - GICR_BASE) % STRIDE
  }

  /** The bank entry a redistributor access of VM vm reaches. */
  function Target(vm: int, ipa: u64): (i: int)
    requires 0 <= vm < MAX_VCPUS && IsFrame(ipa)
    ensures 0 <= i < MAX_VCPUS
  {
    if vm + Frame(ipa) >= MAX_VCPUS then MAX_VCPUS - 1 else vm + Frame(ipa)
  }

  function WriteFrame(g: Gic, off: int, val: u32): Gic {
    match off
    case 0x1_0080 => g.(group := val)
    case 0x1_0100 => g.(enabled := Or32(g.enabled, val))
    case 0x1_0180 => g.(enabled := AndNot32(g.enabled, val))
    case _ => g
  }

  function WriteDist(g: Gic, off: int, val: u32): Gic
    requires |g.spi| == 8
  {
    if off == 0 then g.(ctlr := val)
    else if 0x100 <= off < 0x180 then
      var k := (off - 0x100) / 4 % 8;
      g.(spi := g.spi[k := Or32(g.spi[k], val)])
    else if 0x180 <= off < 0x200 then
      var k := (off - 0x180) / 4 % 8;
      g.(spi := g.spi[k := AndNot32(g.spi[k], val)])
    else g
  }

  /** reg_write */
  function Write(vg: Bank, vm: int, ipa: u64, val: u32): Bank
    requires 0 <= vm < MAX_VCPUS && GICD_BASE <= ipa
  {
    if IsFrame(ipa) then
      vg[Target(vm, ipa) := WriteFrame(vg[Target(vm, ipa)], FrameOffset(ipa), val)]
    else
      vg[vm := WriteDist(vg[vm], ipa - GICD_BASE, val)]
  }

  function ReadFrame(g: Gic, frame: nat, ngicr: int, off: int): u32
    requires frame < TWO16
  {
    match off
    case 0x0008 => (if frame == ngicr - 1 then 0x10 else 0) + frame * 0x100
    case 0x000C => frame
    case 0xFFE8 => 0x30
    case 0x1_0080 => g.group
    case 0x1_0100 => g.enabled
    case _ => 0
  }

  function ReadDist(g: Gic, off: int): u32
    requires |g.spi| == 8
  {
    if off == 0 then g.ctlr
    else if off == 4 then 0x48_0007
    else if off == 0xFFE8 then 0x30
    else if 0x100 <= off < 0x180 then g.spi[(off - 0x100) / 4 % 8]
    else if 0x180 <= off < 0x200 then g.spi[(off - 0x180) / 4 % 8]
    else 0
  }

  /** reg_read */
  function Read(vg: Bank, ngicr: int, vm: int, ipa: u64): u32
    requires 0 <= vm < MAX_VCPUS && GICD_BASE <= ipa < GICR_BASE + STRIDE * TWO16
  {
    if IsFrame(ipa) then ReadFrame(vg[Target(vm, ipa)], Frame(ipa), ngicr, FrameOffset(ipa))
    else ReadDist(vg[vm], ipa - GICD_BASE)
  }

  predicate IrqEnabled(vg: Bank, vm: int, intid: nat)
    requires 0 <= vm < MAX_VCPUS
  {
    intid < 32 && Bit(vg[vm].enabled, intid)
  }

  predicate SpiEnabled(vg: Bank, vm: int, intid: nat)
    requires 0 <= vm < MAX_VCPUS
  {
    32 <= intid < 256 && Bit(vg[vm].spi[intid / 32], intid % 32)
  }

  // ---- traces of accesses ----

  /** A 32-bit register write; a 64-bit access is two of them. */
  datatype WordWrite = WordWrite(vm: int, ipa: u64, val: u32)

  predicate GoodWrite(w: WordWrite) { 0 <= w.vm < MAX_VCPUS && GICD_BASE <= w.ipa }

  type Trace = ws: seq<WordWrite> | forall w :: w in ws ==> GoodWrite(w)

  /** The word writes vgic_mmio makes for a store of val, 32- or 64-bit wide. */
  function AccessWords(vm: int, ipa: u64, wide: bool, val: u64): Trace
    requires 0 <= vm < MAX_VCPUS && GICD_BASE <= ipa && ipa + 4 < TWO64
  {
    var low := WordWrite(vm, ipa, val % TWO32);
    if wide then [low, WordWrite(vm, ipa + 4, val / TWO32)] else [low]
  }

  function After(vg: Bank, ws: Trace): Bank {
    if ws == [] then vg
    else
      var w := ws[|ws| - 1];
      assert GoodWrite(w);
      Write(After(vg, ws[..|ws| - 1]), w.vm, w.ipa, w.val)
  }

  /** One or two register writes. */
  lemma AccessIs(vg: Bank, vm: int, ipa: u64, wide: bool, val: u64)
    requires 0 <= vm < MAX_VCPUS && GICD_BASE <= ipa && ipa + 4 < TWO64
    ensures var low := Write(vg, vm, ipa, val % TWO32);
      After(vg, AccessWords(vm, ipa, wide, val)) == if wide then Write(low, vm, ipa + 4, val / TWO32) else low
  {
    var ws := AccessWords(vm, ipa, wide, val);
    assert ws[..0] == [] && After(vg, [WordWrite(vm, ipa, val % TWO32)]) == Write(vg, vm, ipa, val % TWO32);
    if wide {
      assert ws[..1] == [WordWrite(vm, ipa, val % TWO32)];
    }
  }

  lemma AfterSnoc(vg: Bank, ws: Trace, w: WordWrite, ws': Trace)
    requires GoodWrite(w) && ws' == ws + [w]
    ensures After(vg, ws') == WriteW(After(vg, ws), w)
  {
    assert ws'[..|ws|] == ws;
  }

  lemma {:induction false} AfterConcat(vg: Bank, ws: Trace, more: Trace, all: Trace)
    requires all == ws + more
    ensures After(vg, all) == After(After(vg, ws), more)
    decreases |more|
  {
    if more == [] {
      assert all == ws;
    } else {
      var init, w := more[..|more| - 1], more[|more| - 1];
      assert w in more && more == init + [w] && all == (ws + init) + [w];
      AfterConcat(vg, ws, init, ws + init);
      AfterSnoc(vg, ws + init, w, all);
      AfterSnoc(After(vg, ws), init, w, more);
    }
  }

  /** An interrupt line: private to redistributor `at`, or a shared one of VM `at`. */
  datatype Line = Private(at: int, intid: int) | Shared(at: int, intid: int)

  predicate GoodLine(l: Line) {
    0 <= l.at < MAX_VCPUS && match l { case Private(_, n) => 0 <= n < 32 case Shared(_, n) => 32 <= n < 256 }
  }

  predicate Enabled(vg: Bank, l: Line)
    requires GoodLine(l)
  {
    match l
    case Private(at, n) => IrqEnabled(vg, at, n)
    case Shared(at, n) => SpiEnabled(vg, at, n)
  }

  /** w addresses an enable register of line l whose file starts at offset `file` (set or clear), with l's bit on. */
  predicate Touches(w: WordWrite, l: Line, privateReg: int, file: int)
    requires GoodWrite(w) && GoodLine(l)
  {
    match l
    case Private(at, n) =>
      IsFrame(w.ipa) && Target(w.vm, w.ipa) == at && FrameOffset(w.ipa) == privateReg && Bit(w.val, n)
    case Shared(at, n) =>
      var off := w.ipa - GICD_BASE;
      !IsFrame(w.ipa) && w.vm == at && file <= off < file + 0x80 && (off - file) / 4 % 8 == n / 32 && Bit(w.val, n % 32)
  }

  predicate Sets(w: WordWrite, l: Line)
    requires GoodWrite(w) && GoodLine(l)
  {
    Touches(w, l, SGI_FRAME + 0x100, 0x100)
  }

  predicate Clears(w: WordWrite, l: Line)
    requires GoodWrite(w) && GoodLine(l)
  {
    Touches(w, l, SGI_FRAME + 0x180, 0x180)
  }

  /** The verdict of the latest write that touched the line; `before` if none did. */
  predicate LastTouch(ws: Trace, l: Line, before: bool)
    requires GoodLine(l)
  {
    if ws == [] then before
    else
      var w := ws[|ws| - 1];
      assert GoodWrite(w);
      if Sets(w, l) then true else if Clears(w, l) then false else LastTouch(ws[..|ws| - 1], l, before)
  }

  lemma WriteTouches(vg: Bank, w: WordWrite, l: Line)
    requires GoodWrite(w) && GoodLine(l)
    ensures Enabled(Write(vg, w.vm, w.ipa, w.val), l) <==> Sets(w, l) || (Enabled(vg, l) && !Clears(w, l))
  {
    if IsFrame(w.ipa) {
      var g := vg[Target(w.vm, w.ipa)];
      if l.Private? {
        OrBit(g.enabled, w.val, l.intid);
        AndNotBit(g.enabled, w.val, l.intid);
      }
    } else if l.Shared? {
      var g, off := vg[w.vm], w.ipa - GICD_BASE;
      OrBit(g.spi[l.intid / 32], w.val, l.intid % 32);
      AndNotBit(g.spi[l.intid / 32], w.val, l.intid % 32);
    }
  }

  /** Enable state is last-writer-wins over any trace of accesses. */
  lemma {:induction false} EnableIsLastTouch(vg: Bank, ws: Trace, l: Line)
    requires GoodLine(l)
    ensures Enabled(After(vg, ws), l) <==> LastTouch(ws, l, Enabled(vg, l))
    decreases |ws|
  {
    if ws != [] {
      var w := ws[|ws| - 1];
      assert GoodWrite(w);
      EnableIsLastTouch(vg, ws[..|ws| - 1], l);
      WriteTouches(After(vg, ws[..|ws| - 1]), w, l);
    }
  }

  /** From reset, an interrupt is enabled exactly when the latest write touching it was a set. */
  lemma EnabledSinceReset(ws: Trace, l: Line)
    requires GoodLine(l)
    ensures Enabled(After(ResetBank(), ws), l) <==> LastTouch(ws, l, false)
  {
    EnableIsLastTouch(ResetBank(), ws, l);
    ZeroBits(l.intid % 32);
    if l.Private? {
      ZeroBits(l.intid);
    }
  }

  // ---- register addresses written out ----

  /** The entry frame f of VM vm belongs to. */
  predicate FrameOf(vm: int, f: int, at: int) { at == if vm + f > 3 then 3 else vm + f }

  lemma FrameAddress(vm: int, f: nat, off: nat, ipa: u64)
    requires 0 <= vm < MAX_VCPUS && off < 0x2_0000 && ipa == 0x080A_0000 + 0x2_0000 * f + off
    ensures IsFrame(ipa) && Frame(ipa) == f && FrameOffset(ipa) == off && FrameOf(vm, f, Target(vm, ipa))
  {
    DivModUnique(ipa - GICR_BASE, STRIDE, f, off);
  }

  /** ISENABLER0 and ICENABLER0 of frame f: exactly the private interrupts whose bits are on. */
  lemma PrivateTouch(vm: int, f: nat, ipa: u64, val: u32, l: Line)
    requires 0 <= vm < MAX_VCPUS && GoodLine(l)
    ensures ipa == 0x080A_0000 + 0x2_0000 * f + 0x1_0100 ==>
              (Sets(WordWrite(vm, ipa, val), l) <==> l.Private? && FrameOf(vm, f, l.at) && Bit(val, l.intid))
    ensures ipa == 0x080A_0000 + 0x2_0000 * f + 0x1_0180 ==>
              (Clears(WordWrite(vm, ipa, val), l) <==> l.Private? && FrameOf(vm, f, l.at) && Bit(val, l.intid))
  {
    if ipa == 0x080A_0000 + 0x2_0000 * f + 0x1_0100 {
      FrameAddress(vm, f, 0x1_0100, ipa);
    }
    if ipa == 0x080A_0000 + 0x2_0000 * f + 0x1_0180 {
      FrameAddress(vm, f, 0x1_0180, ipa);
    }
  }

  /** ISENABLER<k> and ICENABLER<k> of the distributor: bit b is INTID 32 (k mod 8) + b of the VM. */
  lemma SharedTouch(vm: int, k: nat, val: u32, l: Line)
    requires 0 <= vm < MAX_VCPUS && GoodLine(l) && k < 32
    ensures Sets(WordWrite(vm, 0x0800_0100 + 4 * k, val), l) <==>
            l.Shared? && l.at == vm && l.intid / 32 == k % 8 && Bit(val, l.intid % 32)
    ensures Clears(WordWrite(vm, 0x0800_0180 + 4 * k, val), l) <==>
            l.Shared? && l.at == vm && l.intid / 32 == k % 8 && Bit(val, l.intid % 32)
  {
  }

  // ---- what a guest reads, over any trace from reset ----

  /** Bit n of ISENABLER0 of frame f: the latest write touching that interrupt was a set. */
  lemma ReadsPrivate(ws: Trace, ngicr: int, vm: int, f: nat, at: int, n: nat)
    requires 0 <= vm < MAX_VCPUS && f < TWO16 && FrameOf(vm, f, at) && n < 32
    ensures Bit(Read(After(ResetBank(), ws), ngicr, vm, 0x080A_0000 + 0x2_0000 * f + 0x1_0100), n)
            <==> LastTouch(ws, Private(at, n), false)
  {
    FrameAddress(vm, f, 0x1_0100, 0x080A_0000 + 0x2_0000 * f + 0x1_0100);
    EnabledSinceReset(ws, Private(at, n));
  }

  /** Bit n mod 32 of ISENABLER<n / 32> and of ICENABLER<n / 32>, in the distributor. */
  lemma ReadsShared(ws: Trace, ngicr: int, vm: int, n: nat)
    requires 0 <= vm < MAX_VCPUS && 32 <= n < 256
    ensures Bit(Read(After(ResetBank(), ws), ngicr, vm, 0x0800_0100 + 4 * (n / 32)), n % 32) <==> LastTouch(ws, Shared(vm, n), false)
    ensures Bit(Read(After(ResetBank(), ws), ngicr, vm, 0x0800_0180 + 4 * (n / 32)), n % 32) <==> LastTouch(ws, Shared(vm, n), false)
  {
    EnabledSinceReset(ws, Shared(vm, n));
    ReadsSpi(After(ResetBank(), ws), ngicr, vm, n / 32);
  }

  lemma ReadsSpi(vg: Bank, ngicr: int, vm: int, k: nat)
    requires 0 <= vm < MAX_VCPUS && k < 8
    ensures Read(vg, ngicr, vm, 0x0800_0100 + 4 * k) == vg[vm].spi[k] == Read(vg, ngicr, vm, 0x0800_0180 + 4 * k)
  {
  }

  /** The latest value written to IGROUPR0 of bank entry `at`, 0 if there was none. */
  function LastGroup(ws: Trace, at: int): u32 {
    if ws == [] then 0
    else
      var w := ws[|ws| - 1];
      assert GoodWrite(w);
      if IsFrame(w.ipa) && Target(w.vm, w.ipa) == at && FrameOffset(w.ipa) == 0x1_0080 then w.val
      else LastGroup(ws[..|ws| - 1], at)
  }

  /** The latest value VM vm wrote to GICD_CTLR. */
  function LastCtlr(ws: Trace, vm: int): u32 {
    if ws == [] then 0
    else
      var w := ws[|ws| - 1];
      if w.ipa == 0x0800_0000 && w.vm == vm then w.val else LastCtlr(ws[..|ws| - 1], vm)
  }

  lemma {:induction false} PlainRegisters(ws: Trace, at: int)
    requires 0 <= at < MAX_VCPUS
    ensures After(ResetBank(), ws)[at].group == LastGroup(ws, at) && After(ResetBank(), ws)[at].ctlr == LastCtlr(ws, at)
    decreases |ws|
  {
    if ws != [] {
      assert GoodWrite(ws[|ws| - 1]);
      PlainRegisters(ws[..|ws| - 1], at);
    }
  }

  /** IGROUPR0 and GICD_CTLR read back the latest value written to them. */
  lemma ReadsBack(ws: Trace, ngicr: int, vm: int, f: nat, at: int)
    requires 0 <= vm < MAX_VCPUS && f < TWO16 && FrameOf(vm, f, at)
    ensures Read(After(ResetBank(), ws), ngicr, vm, 0x080A_0000 + 0x2_0000 * f + 0x1_0080) == LastGroup(ws, at)
    ensures Read(After(ResetBank(), ws), ngicr, vm, 0x0800_0000) == LastCtlr(ws, vm)
  {
    FrameAddress(vm, f, 0x1_0080, 0x080A_0000 + 0x2_0000 * f + 0x1_0080);
    PlainRegisters(ws, at);
    PlainRegisters(ws, vm);
  }

  lemma ReadsFrame(vg: Bank, ngicr: int, vm: int, f: nat, off: nat, ipa: u64)
    requires 0 <= vm < MAX_VCPUS && f < TWO16 && off < 0x2_0000 && ipa == 0x080A_0000 + 0x2_0000 * f + off
    ensures Read(vg, ngicr, vm, ipa) == ReadFrame(vg[Target(vm, ipa)], f, ngicr, off)
  {
    FrameAddress(vm, f, off, ipa);
  }

  /**
   * What a driver walks: GICR_TYPER of frame f carries processor number f (bits 23:8), and
   * its Last bit (4) is set for exactly frame ngicr - 1.
   */
  lemma TyperExact(vg: Bank, ngicr: int, vm: int, f: nat, ipa: u64, typer: u32)
    requires 0 <= vm < MAX_VCPUS && f < TWO16 && ipa == 0x080A_0000 + 0x2_0000 * f + 0x8
    requires typer == Read(vg, ngicr, vm, ipa)
    ensures typer / 0x100 == f && (typer / 0x10 % 2 == 1 <==> f == ngicr - 1)
  {
    var last := f == ngicr - 1;
    assert typer == (if last then 0x10 else 0) + f * 0x100 by {
      ReadsFrame(vg, ngicr, vm, f, 0x8, ipa);
    }
    TyperFields(typer, f, last);
  }

  lemma TyperFields(typer: int, f: nat, last: bool)
    requires typer == (if last then 0x10 else 0) + f * 0x100
    ensures typer / 0x100 == f && (typer / 0x10 % 2 == 1 <==> last)
  {
    var bit := if last then 1 else 0;
    DivModUnique(typer, 0x100, f, 0x10 * bit);
    DivModUnique(typer, 0x10, 16 * f + bit, 0);
    DivModUnique(16 * f + bit, 2, 8 * f, bit);
  }

  /** The affinity word is f too, the redistributor is awake, and it reports architecture version 3. */
  lemma FrameIdentity(vg: Bank, ngicr: int, vm: int, f: nat, off: nat, ipa: u64, val: u32)
    requires 0 <= vm < MAX_VCPUS && f < TWO16 && off < 0x2_0000 && ipa == 0x080A_0000 + 0x2_0000 * f + off
    requires val == Read(vg, ngicr, vm, ipa)
    ensures (off == 0xC ==> val == f) && (off == 0x14 ==> val == 0) && (off == 0xFFE8 ==> val / 0x10 == 3)
  {
    ReadsFrame(vg, ngicr, vm, f, off, ipa);
  }

  /** The distributor reports version 3, 32 (7 + 1) interrupts and 10-bit numbers. */
  lemma DistributorExact(vg: Bank, ngicr: int, vm: int)
    requires 0 <= vm < MAX_VCPUS
    ensures Read(vg, ngicr, vm, 0x0800_FFE8) / 0x10 == 3 && Read(vg, ngicr, vm, 0x0800_0008) == 0
    ensures 32 * (Read(vg, ngicr, vm, 0x0800_0004) % 32 + 1) == 256 && Read(vg, ngicr, vm, 0x0800_0004) / 0x8_0000 % 32 == 9
  {
  }

  /** A store to ISENABLER<k> enables exactly the interrupts its bits name, besides those enabled before. */
  lemma OneStore(vg: Bank, vm: int, k: nat, val: u32, n: nat, ipa: u64)
    requires 0 <= vm < MAX_VCPUS && k < 32 && 32 <= n < 256 && ipa == 0x0800_0100 + 4 * k
    ensures SpiEnabled(Write(vg, vm, ipa, val), vm, n) <==> SpiEnabled(vg, vm, n) || (n / 32 == k % 8 && Bit(val, n % 32))
  {
    WriteTouches(vg, WordWrite(vm, ipa, val), Shared(vm, n));
    SharedTouch(vm, k, val, Shared(vm, n));
    NotCleared(vm, k, val, Shared(vm, n));
  }

  /** A 64-bit store to ISENABLER<k> enables INTID 32 k + b for exactly the bits b of its value, low word first. */
  lemma WideStore(vg: Bank, vm: int, k: nat, val: u64, b: nat, ipa: u64, vg': Bank)
    requires 0 <= vm < MAX_VCPUS && 1 <= k < 7 && b < 64 && ipa == 0x0800_0100 + 4 * k
    requires vg' == After(vg, AccessWords(vm, ipa, true, val))
    ensures SpiEnabled(vg', vm, 32 * k + b) <==> SpiEnabled(vg, vm, 32 * k + b) || Bit(val, b)
  {
    AccessIs(vg, vm, ipa, true, val);
    TwoStores(vg, vm, k, val % TWO32, val / TWO32, 32 * k + b, b, ipa, Write(vg, vm, ipa, val % TWO32), vg');
    HalvesBit(val, b);
  }

  lemma TwoStores(vg: Bank, vm: int, k: nat, lo: u32, hi: u32, n: nat, b: nat, ipa: u64, mid: Bank, vg': Bank)
    requires 0 <= vm < MAX_VCPUS && 1 <= k < 7 && b < 64 && n == 32 * k + b && ipa == 0x0800_0100 + 4 * k
    requires mid == Write(vg, vm, ipa, lo) && vg' == Write(mid, vm, ipa + 4, hi)
    ensures SpiEnabled(vg', vm, n) <==> SpiEnabled(vg, vm, n) || (if b < 32 then Bit(lo, b) else Bit(hi, b - 32))
  {
    DivModUnique(n, 32, k + b / 32, b % 32);
    OneStore(vg, vm, k, lo, n, ipa);
    OneStore(mid, vm, k + 1, hi, n, ipa + 4);
  }

  lemma NotCleared(vm: int, k: nat, val: u32, l: Line)
    requires 0 <= vm < MAX_VCPUS && GoodLine(l) && k < 32
    ensures !Clears(WordWrite(vm, 0x0800_0100 + 4 * k, val), l)
  {
  }

  lemma HalvesBit(val: u64, b: nat)
    requires b < 64
    ensures Bit(val, b) <==> if b < 32 then Bit(val % TWO32, b) else Bit(val / TWO32, b - 32)
  {
    Pow2At32();
    if b < 32 {
      LowIsMod(val, 32);
      LowBit(val, 32, b);
    } else {
      ShrIsDiv(val, 32);
      ShrBit(val, 32, b - 32);
    }
  }

  /** w writes the set (or clear) enable file of its VM's distributor. */
  predicate InFile(w: WordWrite, setting: bool) {
    !IsFrame(w.ipa) && FileBase(setting) <= w.ipa < FileBase(setting) + 0x80
  }

  function FileBase(setting: bool): int { GICD_BASE + if setting then 0x100 else 0x180 }

  /** The number of the enable register w addresses: ISENABLER<n> or ICENABLER<n>. */
  function Register(w: WordWrite, setting: bool): int { (w.ipa - FileBase(setting)) / 4 }

  /** The architecture's meaning of that register: bit b of register n is INTID 32 n + b. */
  predicate Names(w: WordWrite, setting: bool, l: Line) {
    l.Shared? && l.at == w.vm && 0 <= l.intid && l.intid / 32 == Register(w, setting) && Bit(w.val, l.intid % 32)
  }

  predicate Hits(w: WordWrite, setting: bool, l: Line)
    requires GoodWrite(w) && GoodLine(l)
  {
    if setting then Sets(w, l) else Clears(w, l)
  }

  /**
   * Registers are folded modulo 8. A write reaches only interrupts its register names,
   * exactly when the register is one of the eight there are, folds onto register 0
   * (whose interrupts are not the distributor's), or is written with 0.
   */
  lemma FoldExact(w: WordWrite, setting: bool)
    requires GoodWrite(w) && InFile(w, setting)
    ensures (forall l :: GoodLine(l) && Hits(w, setting, l) ==> Names(w, setting, l)) <==>
            Register(w, setting) < 8 || Register(w, setting) % 8 == 0 || w.val == 0
  {
    if Folds(w, setting) {
      var l := FoldedLine(w, setting);
      assert !(Hits(w, setting, l) ==> Names(w, setting, l));
    } else {
      forall l | GoodLine(l) && Hits(w, setting, l) ensures Names(w, setting, l) {
        NotFolded(w, setting, l);
      }
    }
  }

  predicate Folds(w: WordWrite, setting: bool) {
    Register(w, setting) >= 8 && Register(w, setting) % 8 != 0 && w.val != 0
  }

  lemma NotFolded(w: WordWrite, setting: bool, l: Line)
    requires GoodWrite(w) && InFile(w, setting) && GoodLine(l) && Hits(w, setting, l) && !Folds(w, setting)
    ensures Names(w, setting, l)
  {
    if w.val == 0 {
      ZeroBits(l.intid % 32);
    }
  }

  lemma FoldedLine(w: WordWrite, setting: bool) returns (l: Line)
    requires GoodWrite(w) && InFile(w, setting) && Folds(w, setting)
    ensures GoodLine(l) && Hits(w, setting, l) && !Names(w, setting, l)
  {
    var n := Register(w, setting) % 8;
    Pow2At32();
    var b := SomeBit(w.val, 32);
    l := Shared(w.vm, 32 * n + b);
    assert l.intid / 32 == n && l.intid % 32 == b;
  }

  /** Bit 1 of ISENABLER9 names INTID 289; writing it enables INTID 33. */
  lemma FoldedWrite(vg: Bank)
    ensures SpiEnabled(Write(vg, 0, GICD_BASE + 0x124, 2), 0, 33)
  {
    WriteTouches(vg, WordWrite(0, GICD_BASE + 0x124, 2), Shared(0, 33));
  }

  // ---- who can influence whom ----

  /** The independent pieces of the bank: a redistributor entry, or a VM's distributor. */
  datatype Part = Redist(k: int) | Dist(vm: int)

  function PartOf(w: WordWrite): Part
    requires GoodWrite(w)
  {
    if IsFrame(w.ipa) then Redist(Target(w.vm, w.ipa)) else Dist(w.vm)
  }

  predicate SamePart(vg: Bank, vg': Bank, p: Part) {
    match p
    case Redist(k) => 0 <= k < MAX_VCPUS ==> vg[k].enabled == vg'[k].enabled && vg[k].group == vg'[k].group
    case Dist(v) => 0 <= v < MAX_VCPUS ==> vg[v].ctlr == vg'[v].ctlr && vg[v].spi == vg'[v].spi
  }

  function WriteW(vg: Bank, w: WordWrite): Bank
    requires GoodWrite(w)
  {
    Write(vg, w.vm, w.ipa, w.val)
  }

  /** A write changes the part it addresses, as a function of that part, and no other part. */
  lemma WriteLocal(vg: Bank, vg': Bank, w: WordWrite, p: Part)
    requires GoodWrite(w) && SamePart(vg, vg', p)
    ensures PartOf(w) == p ==> SamePart(WriteW(vg, w), WriteW(vg', w), p)
    ensures PartOf(w) != p ==> SamePart(WriteW(vg, w), vg', p)
  {
  }

  function Only(ws: Trace, p: Part): Trace {
    if ws == [] then []
    else
      var w := ws[|ws| - 1];
      assert GoodWrite(w);
      Only(ws[..|ws| - 1], p) + if PartOf(w) == p then [w] else []
  }

  /** After any trace, each part is what the writes addressed to it alone would have made of it. */
  lemma {:induction false} PartsIndependent(vg: Bank, ws: Trace, p: Part)
    ensures SamePart(After(vg, ws), After(vg, Only(ws, p)), p)
    decreases |ws|
  {
    if ws != [] {
      var w, pre := ws[|ws| - 1], ws[..|ws| - 1];
      assert GoodWrite(w);
      PartsIndependent(vg, pre, p);
      WriteLocal(After(vg, pre), After(vg, Only(pre, p)), w, p);
      if PartOf(w) == p {
        var only := Only(ws, p);
        assert only[..|only| - 1] == Only(pre, p) && only[|only| - 1] == w;
      } else {
        assert Only(ws, p) == Only(pre, p);
      }
    }
  }

  /** VM vm uses its distributor and the single redistributor frame it is presented. */
  predicate OwnAddress(ipa: u64) { GICD_BASE <= ipa < GICR_BASE + STRIDE }

  function ByVm(ws: Trace, v: int): Trace {
    if ws == [] then []
    else
      assert GoodWrite(ws[|ws| - 1]);
      ByVm(ws[..|ws| - 1], v) + if ws[|ws| - 1].vm == v then [ws[|ws| - 1]] else []
  }

  lemma {:induction false} OnlyByVm(ws: Trace, v: int, p: Part)
    requires p == Redist(v) || p == Dist(v)
    requires forall w :: w in ws ==> OwnAddress(w.ipa)
    ensures Only(ByVm(ws, v), p) == Only(ws, p)
    decreases |ws|
  {
    if ws != [] {
      var w, pre := ws[|ws| - 1], ws[..|ws| - 1];
      assert w in ws && GoodWrite(w);
      OnlyByVm(pre, v, p);
      if w.vm == v {
        var own := ByVm(ws, v);
        assert own[..|own| - 1] == ByVm(pre, v) && own[|own| - 1] == w;
      } else {
        assert ByVm(ws, v) == ByVm(pre, v) && PartOf(w) != p;
      }
    }
  }

  /** Tenants that stay with their own frame read, after any interleaving, what they would read running alone. */
  lemma TenantReadsAlone(vg: Bank, ws: Trace, v: int, ngicr: int, ipa: u64)
    requires 0 <= v < MAX_VCPUS && OwnAddress(ipa) && forall w :: w in ws ==> OwnAddress(w.ipa)
    ensures Read(After(vg, ws), ngicr, v, ipa) == Read(After(vg, ByVm(ws, v)), ngicr, v, ipa)
  {
    var p := if IsFrame(ipa) then Redist(v) else Dist(v);
    PartsIndependent(vg, ws, p);
    PartsIndependent(vg, ByVm(ws, v), p);
    OnlyByVm(ws, v, p);
    ReadsPart(After(vg, ws), After(vg, ByVm(ws, v)), v, ngicr, ipa);
  }

  lemma ReadsPart(vg: Bank, vg': Bank, v: int, ngicr: int, ipa: u64)
    requires 0 <= v < MAX_VCPUS && OwnAddress(ipa) && SamePart(vg, vg', if IsFrame(ipa) then Redist(v) else Dist(v))
    ensures Read(vg, ngicr, v, ipa) == Read(vg', ngicr, v, ipa)
  {
  }

  /** Whose redistributor a VM reaches: its own exactly through frame 0, except that the last entry absorbs all further frames. */
  lemma TargetExact(vm: int, ipa: u64)
    requires 0 <= vm < MAX_VCPUS && IsFrame(ipa)
    ensures Target(vm, ipa) == vm <==> Frame(ipa) == 0 || vm == MAX_VCPUS - 1
    ensures vm == 0 && Frame(ipa) < MAX_VCPUS ==> Target(vm, ipa) == Frame(ipa)
  {
  }

  /** Through its second frame VM 0 enables an interrupt of VM 1. */
  lemma SecondFrameIsNeighbour(vg: Bank)
    requires !IrqEnabled(vg, 1, 27)
    ensures IrqEnabled(Write(vg, 0, GICR_BASE + STRIDE + SGI_FRAME + 0x100, 0x800_0000), 1, 27)
  {
    var w := WordWrite(0, GICR_BASE + STRIDE + SGI_FRAME + 0x100, 0x800_0000);
    assert Bit(0x800_0000, 27) by {
      Pow2At27();
      Pow2Bit(27, 27);
    }
    WriteTouches(vg, w, Private(1, 27));
  }

  // ---- software-generated interrupts ----

  type Pending = p: seq<u32> | |p| == MAX_VCPUS witness [0, 0, 0, 0]

  /** vgic_post_sgi: all vCPUs but the sender. */
  function Post(p: Pending, self: int, intid: u32): Pending {
    seq(MAX_VCPUS, i requires 0 <= i < MAX_VCPUS => if i != self then Marked(p[i], intid % 32) else p[i])
  }

  function Marked(x: u32, b: nat): u32
    requires b < 32
  {
    Pow2Below32(b);
    Or32(x, Pow2(b))
  }

  /** The scan of vgic_pop_sgi, from bit b on: the first set bit below 16, or -1. */
  function FirstSgi(x: u32, b: nat): (s: int)
    requires b <= 16
    ensures -1 <= s < 16
    decreases 16 - b
  {
    if b == 16 then -1 else if Bit(x, b) then b else FirstSgi(x, b + 1)
  }

  /** What vgic_pop_sgi leaves. */
  function Popped(x: u32): u32 {
    var s := FirstSgi(x, 0);
    if s < 0 then x else AndNotBound(x, Pow2(s)); AndNot(x, Pow2(s))
  }

  lemma {:induction false} FirstSgiIsLeast(x: u32, b: nat)
    requires b <= 16
    ensures var s := FirstSgi(x, b);
      && -1 <= s < 16
      && (s >= 0 ==> b <= s && Bit(x, s) && forall c: nat :: b <= c < s ==> !Bit(x, c))
      && (s == -1 ==> forall c: nat :: b <= c < 16 ==> !Bit(x, c))
    decreases 16 - b
  {
    if b < 16 && !Bit(x, b) {
      FirstSgiIsLeast(x, b + 1);
    }
  }

  /** The pop delivers the least pending SGI and removes exactly it. */
  lemma PopExact(x: u32, c: nat)
    ensures FirstSgi(x, 0) == -1 || (0 <= FirstSgi(x, 0) < 16 && Bit(x, FirstSgi(x, 0)))
    ensures c < 16 && Bit(x, c) ==> 0 <= FirstSgi(x, 0) <= c
    ensures Bit(Popped(x), c) <==> Bit(x, c) && c != FirstSgi(x, 0)
    ensures FirstSgi(x, 0) >= 0 ==> Popped(x) < x
  {
    FirstSgiIsLeast(x, 0);
    var s := FirstSgi(x, 0);
    if s >= 0 {
      assert Bit(x, s) && s < 16;
      AndNotBit(x, Pow2(s), c);
      Pow2Bit(s, c);
      ClearSmaller(x, s);
    }
  }

  predicate AnySgi(x: u32) { exists b: nat :: b < 16 && Bit(x, b) }

  /** -1 means "nothing pending" exactly for the masks that are empty or hold an SGI 0..15; so for all masks of SGIs 0..15. */
  lemma PopEmptyExact(x: u32)
    ensures (FirstSgi(x, 0) == -1 <==> x == 0) <==> x == 0 || AnySgi(x)
    ensures x < Pow2(16) ==> x == 0 || AnySgi(x)
  {
    FirstSgiIsLeast(x, 0);
    if x == 0 {
      forall b: nat ensures !Bit(x, b) {
        ZeroBits(b);
      }
    } else if x < Pow2(16) {
      var b := SomeBit(x, 16);
    }
  }

  /** A pending bit 16 would be reported as nothing pending. */
  lemma PopMissesHighBit()
    ensures FirstSgi(Marked(0, 16), 0) == -1 && Marked(0, 16) != 0
  {
    var x := Marked(0, 16);
    forall b: nat ensures Bit(x, b) <==> b == 16 {
      OrBit(0, Pow2(16), b);
      ZeroBits(b);
      Pow2Bit(16, b);
    }
    FirstSgiIsLeast(x, 0);
    ZeroBits(16);
  }

  /** All the SGIs that repeated pops deliver. */
  function Drained(x: u32): seq<int>
    decreases x
  {
    var s := FirstSgi(x, 0);
    if s < 0 then [] else PopExact(x, 0); [s] + Drained(Popped(x))
  }

  /** Repeated pops deliver the pending SGIs in ascending order, each once, and then nothing. */
  lemma {:induction false} DrainedInOrder(x: u32)
    ensures forall i, j :: 0 <= i < j < |Drained(x)| ==> Drained(x)[i] < Drained(x)[j]
    ensures forall b: int :: b in Drained(x) <==> 0 <= b < 16 && Bit(x, b)
    decreases x
  {
    FirstSgiIsLeast(x, 0);
    var s := FirstSgi(x, 0);
    if s >= 0 {
      PopExact(x, 0);
      DrainedInOrder(Popped(x));
      forall b: nat | b < 16 ensures Bit(Popped(x), b) <==> Bit(x, b) && b != s {
        PopExact(x, b);
      }
      var d := Drained(x);
      assert d == [s] + Drained(Popped(x));
      forall b: int ensures b in d <==> 0 <= b < 16 && Bit(x, b) {
        assert b in d <==> b == s || b in Drained(Popped(x));
      }
      forall j | 0 < j < |d| ensures s < d[j] {
        assert d[j] == Drained(Popped(x))[j - 1] && d[j] in Drained(Popped(x));
        assert !(0 <= d[j] < s);
      }
    }
  }

  lemma PostAt(p: Pending, self: int, intid: u32, i: int)
    requires intid < 32 && 0 <= i < MAX_VCPUS
    ensures Post(p, self, intid)[i] == if i != self then Marked(p[i], intid) else p[i]
  {
  }

  lemma MarkedEffect(x: u32, c: nat, b: nat)
    requires c < 16 && x < Pow2(16)
    ensures Marked(x, c) < Pow2(16) && (Bit(Marked(x, c), b) <==> Bit(x, b) || b == c)
  {
    Pow2Strict(c, 16);
    OrBound(x, Pow2(c), 16);
    OrBit(x, Pow2(c), b);
    Pow2Bit(c, b);
  }

  /** Posting an SGI 0..15 keeps every mask to SGIs 0..15, adds it everywhere but at the sender, and nothing else. */
  lemma PostEffect(p: Pending, self: int, intid: u32, i: int, b: nat)
    requires intid < 16 && 0 <= i < MAX_VCPUS && (forall k :: 0 <= k < MAX_VCPUS ==> p[k] < Pow2(16))
    ensures Post(p, self, intid)[i] < Pow2(16)
    ensures Bit(Post(p, self, intid)[i], b) <==> Bit(p[i], b) || (i != self && b == intid)
  {
    PostAt(p, self, intid, i);
    if i != self {
      MarkedEffect(p[i], intid, b);
    }
  }
}
