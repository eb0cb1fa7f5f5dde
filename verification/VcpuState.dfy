/** The per-vCPU record and the data-abort syndrome every MMIO handler decodes. */
module VcpuState {
  import opened Words
  import opened Bits

  /** ESR_EL2.ISS of a data abort, as the handlers pick it apart. */
  datatype Syndrome = Syndrome(valid: bool, size: int, reg: int, write: bool)

  function DecodeSyndrome(esr: u64): (s: Syndrome)
    ensures 0 <= s.reg < 32 && 0 <= s.size < 4
  {
    var iss := esr % 0x200_0000;
    Syndrome(iss / 0x100_0000 % 2 == 1, iss / 0x40_0000 % 4, iss / 0x1_0000 % 32, iss / 0x40 % 2 == 1)
  }

  lemma IssField(esr: u64, from: nat, n: nat, f: nat)
    requires from + n <= 25 && f == esr % Pow2(25) / Pow2(from) % Pow2(n)
    ensures IsField(f, esr, from, n)
  {
    LowIsMod(esr, 25);
    DividedField(Low(esr, 25), from, n, f);
    MaskedField(esr, 25, from, n, f);
  }

  lemma DividedField(x: nat, from: nat, n: nat, f: nat)
    requires f == x / Pow2(from) % Pow2(n)
    ensures IsField(f, x, from, n)
  {
    ShrIsDiv(x, from);
    LowIsMod(Shr(x, from), n);
    FieldIs(x, from, n);
  }

  lemma MaskedField(x: nat, m: nat, from: nat, n: nat, f: nat)
    requires from + n <= m && IsField(f, Low(x, m), from, n)
    ensures IsField(f, x, from, n)
  {
    forall b: nat | b < n ensures Bit(f, b) <==> Bit(x, from + b) {
      LowBit(x, m, from + b);
    }
  }

  lemma OneBit(f: nat, x: nat, from: nat)
    requires IsField(f, x, from, 1)
    ensures f < 2 && (f == 1 <==> Bit(x, from))
  {
    assert Pow2(1) == 2 && (Bit(f, 0) <==> Bit(x, from + 0));
  }

  /** The architecture's fields: ISV is bit 24, SAS bits 23:22, SRT bits 20:16, WnR bit 6. */
  lemma SyndromeExact(esr: u64)
    ensures var s := DecodeSyndrome(esr);
      && (s.valid <==> Bit(esr, 24)) && (s.write <==> Bit(esr, 6))
      && IsField(s.size, esr, 22, 2) && IsField(s.reg, esr, 16, 5)
  {
    Pow2Small();
    Pow2At32();
    var iss := esr % 0x200_0000;
    IssField(esr, 24, 1, iss / 0x100_0000 % 2);
    OneBit(iss / 0x100_0000 % 2, esr, 24);
    IssField(esr, 6, 1, iss / 0x40 % 2);
    OneBit(iss / 0x40 % 2, esr, 6);
    IssField(esr, 22, 2, iss / 0x40_0000 % 4);
    IssField(esr, 16, 5, iss / 0x1_0000 % 32);
  }

  /** What a store carries after a load: register 31 reads zero and cannot be written, the others hold what was put there. */
  lemma LoadThenStore(x: seq<u64>, reg: int, val: u64, reg': int)
    requires |x| == 31 && 0 <= reg < 32 && 0 <= reg' < 32
    ensures |Loaded(x, reg, val)| == 31
    ensures Stored(Loaded(x, reg, val), reg') == if reg' == 31 then 0 else if reg' == reg then val else x[reg']
  {
  }

  /** The register file after a load into register reg; 31 is the zero register. */
  function Loaded(x: seq<u64>, reg: int, val: u64): seq<u64>
    requires |x| == 31 && 0 <= reg < 32
  {
    if reg == 31 then x else x[reg := val]
  }

  /** The value a store from register reg carries. */
  function Stored(x: seq<u64>, reg: int): u64
    requires |x| == 31 && 0 <= reg < 32
  {
    if reg == 31 then 0 else x[reg]
  }

  /** The part of vcpu_t an MMIO handler reads and updates. */
  class TrapFrame {
    var x: seq<u64>
    var pc: u64
    var exitEsr: u64

    constructor (x: seq<u64>, pc: u64, exitEsr: u64)
      requires |x| == 31
      ensures this.x == x && this.pc == pc && this.exitEsr == exitEsr
    {
      this.x, this.pc, this.exitEsr := x, pc, exitEsr;
    }
  }
}
