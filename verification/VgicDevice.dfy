/** vgic.c as an object: the register bank and the SGI masks updated in place, proved against VgicSpec. */
module VgicDevice {
  import opened Words
  import opened Bits
  import opened VcpuState
  import opened VgicSpec

  class Vgic {
    const vg: array<Gic>
    const sgiPending: array<u32>
    var ngicr: int

    ghost predicate Valid()
      reads vg
    {
      vg.Length == MAX_VCPUS && sgiPending.Length == MAX_VCPUS && forall i :: 0 <= i < MAX_VCPUS ==> |vg[i].spi| == 8
    }

    ghost function Contents(): Bank
      requires Valid()
      reads vg
    {
      vg[..]
    }

    ghost function Sgis(): Pending
      requires Valid()
      reads vg, sgiPending
    {
      sgiPending[..]
    }

    constructor ()
      ensures Valid() && fresh(vg) && fresh(sgiPending)
    {
      vg := new Gic[MAX_VCPUS](i => Gic(0, 0, 0, [0, 0, 0, 0, 0, 0, 0, 0]));
      sgiPending := new u32[MAX_VCPUS](i => 0);
      ngicr := 1;
    }

    /** vgic_reset */
    method Reset()
      requires Valid()
      modifies this, vg, sgiPending
      ensures Valid() && ngicr == 1 && Contents() == ResetBank() && Sgis() == [0, 0, 0, 0]
    {
      ngicr := 1;
      for i := 0 to MAX_VCPUS
        invariant Valid() && ngicr == 1
        invariant forall k :: 0 <= k < i ==> vg[k] == Gic(0, 0, 0, [0, 0, 0, 0, 0, 0, 0, 0]) && sgiPending[k] == 0
      {
        vg[i] := vg[i].(ctlr := 0, enabled := 0, group := 0);
        for j := 0 to 8
          invariant Valid() && ngicr == 1
          invariant forall k :: 0 <= k < i ==> vg[k] == Gic(0, 0, 0, [0, 0, 0, 0, 0, 0, 0, 0]) && sgiPending[k] == 0
          invariant vg[i].ctlr == vg[i].enabled == vg[i].group == 0 && forall k :: 0 <= k < j ==> vg[i].spi[k] == 0
        {
          vg[i] := vg[i].(spi := vg[i].spi[j := 0]);
        }
        assert vg[i].spi == [0, 0, 0, 0, 0, 0, 0, 0];
        sgiPending[i] := 0;
      }
      assert vg[..] == ResetBank();
      assert sgiPending[..] == [0, 0, 0, 0];
    }

    /** reg_write */
    method RegWrite(vm: int, ipa: u64, val: u32)
      requires Valid() && 0 <= vm < MAX_VCPUS && GICD_BASE <= ipa
      modifies vg
      ensures Valid() && Contents() == Write(old(Contents()), vm, ipa, val)
    {
      if ipa >= GICR_BASE {
        var goff := ipa as int - GICR_BASE;
        var frame := goff / STRIDE;
        var off := goff % STRIDE;
        var idx := vm + frame;
        if idx >= MAX_VCPUS {
          idx := MAX_VCPUS - 1;
        }
        match off {
          case 0x1_0080 => vg[idx] := vg[idx].(group := val);
          case 0x1_0100 => vg[idx] := vg[idx].(enabled := Or32(vg[idx].enabled, val));
          case 0x1_0180 => vg[idx] := vg[idx].(enabled := AndNot32(vg[idx].enabled, val));
          case _ =>
        }
        return;
      }
      var off := ipa as int - GICD_BASE;
      if off == 0 {
        vg[vm] := vg[vm].(ctlr := val);
      } else if 0x100 <= off < 0x180 {
        var k := (off - 0x100) / 4 % 8;
        vg[vm] := vg[vm].(spi := vg[vm].spi[k := Or32(vg[vm].spi[k], val)]);
      } else if 0x180 <= off < 0x200 {
        var k := (off - 0x180) / 4 % 8;
        vg[vm] := vg[vm].(spi := vg[vm].spi[k := AndNot32(vg[vm].spi[k], val)]);
      }
    }

    /** A 64-bit store is two register writes. */
    method WriteAccess(vm: int, ipa: u64, wide: bool, val: u64)
      requires Valid() && 0 <= vm < MAX_VCPUS && VgicSpec.Contains(ipa)
      modifies vg
      ensures Valid() && Contents() == After(old(Contents()), AccessWords(vm, ipa, wide, val))
    {
      ghost var before := Contents();
      RegWrite(vm, ipa, val % TWO32);
      if wide {
        RegWrite(vm, ipa + 4, val / TWO32);
      }
      AccessIs(before, vm, ipa, wide, val);
    }

    /** vgic_mmio: one or two register accesses, the loaded value, the next instruction. */
    method Mmio(vm: int, v: TrapFrame, ipa: u64)
      requires Valid() && 0 <= vm < MAX_VCPUS && |v.x| == 31 && VgicSpec.Contains(ipa)
      modifies vg, v`x, v`pc
      ensures Valid() && v.pc == Wrap(old(v.pc) + 4)
      ensures var s := DecodeSyndrome(v.exitEsr);
        if !s.valid then Contents() == old(Contents()) && v.x == old(v.x)
        else if s.write then
          Contents() == After(old(Contents()), AccessWords(vm, ipa, s.size == 3, Stored(old(v.x), s.reg))) && v.x == old(v.x)
        else
          && Contents() == old(Contents())
          && v.x == Loaded(old(v.x), s.reg, Read(Contents(), ngicr, vm, ipa) +
                           if s.size == 3 then TWO32 * Read(Contents(), ngicr, vm, ipa + 4) else 0)
    {
      var s := DecodeSyndrome(v.exitEsr);
      if s.valid {
        if s.write {
          WriteAccess(vm, ipa, s.size == 3, Stored(v.x, s.reg));
        } else {
          var val: int := Read(vg[..], ngicr, vm, ipa);
          if s.size == 3 {
            val := val + TWO32 * Read(vg[..], ngicr, vm, ipa + 4);
          }
          v.x := Loaded(v.x, s.reg, val);
        }
      }
      v.pc := Wrap(v.pc + 4);
    }

    /** vgic_post_sgi: mark the SGI pending on every vCPU but the sender. */
    method PostSgi(self: int, intid: u32)
      requires Valid()
      modifies sgiPending
      ensures Sgis() == Post(old(Sgis()), self, intid)
    {
      for i := 0 to MAX_VCPUS
        invariant forall k :: 0 <= k < MAX_VCPUS ==>
          sgiPending[k] == if k < i && k != self then Marked(old(sgiPending[k]), intid % 32) else old(sgiPending[k])
      {
        if i != self {
          Pow2Below32(intid % 32);
          sgiPending[i] := Or32(sgiPending[i], Pow2(intid % 32));
        }
      }
      assert sgiPending[..] == Post(old(Sgis()), self, intid);
    }

    /** vgic_pop_sgi: take the lowest pending SGI of the vCPU, or -1. */
    method PopSgi(vcpu: int) returns (s: int)
      requires Valid()
      modifies sgiPending
      ensures 0 <= vcpu < MAX_VCPUS ==>
        s == FirstSgi(old(Sgis())[vcpu], 0) && Sgis() == old(Sgis())[vcpu := Popped(old(Sgis())[vcpu])]
      ensures !(0 <= vcpu < MAX_VCPUS) ==> s == -1 && Sgis() == old(Sgis())
    {
      if vcpu < 0 || vcpu >= MAX_VCPUS {
        return -1;
      }
      if sgiPending[vcpu] == 0 {
        forall b: nat ensures !Bit(0, b) { ZeroBits(b); }
        FirstSgiIsLeast(0, 0);
        return -1;
      }
      for b := 0 to 16
        invariant sgiPending[..] == old(sgiPending[..])
        invariant FirstSgi(sgiPending[vcpu], 0) == FirstSgi(sgiPending[vcpu], b)
      {
        if Bit(sgiPending[vcpu], b) {
          sgiPending[vcpu] := AndNot32(sgiPending[vcpu], Pow2Word(b));
          return b;
        }
      }
      return -1;
    }
  }

  function Pow2Word(b: nat): (p: u32)
    requires b < 32
    ensures p == Pow2(b)
  {
    Pow2Below32(b);
    Pow2(b)
  }
}
