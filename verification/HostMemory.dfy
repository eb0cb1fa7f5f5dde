/**
 * Host physical memory as one byte per 64-bit address, with the little-endian
 * loads and stores the device models perform through raw pointers.
 */
module HostMemory {
  import opened Words

  type Mem = m: seq<u8> | |m| == TWO64 ghost witness seq(TWO64, i => 0)

  function Byte(m: Mem, a: int): u8 { m[Wrap(a)] }

  function Put(m: Mem, a: int, v: u8): Mem { m[Wrap(a) := v] }

  function Pow256(n: nat): nat { if n == 0 then 1 else 0x100 * Pow256(n - 1) }

  /** Little-endian load of n bytes. */
  function Load(m: Mem, a: int, n: nat): (v: nat)
    ensures v < Pow256(n)
    decreases n, a
  {
    if n == 0 then 0 else Byte(m, a) + 0x100 * Load(m, a + 1, n - 1)
  }

  /** Little-endian store of n bytes. */
  function Store(m: Mem, a: int, n: nat, v: nat): Mem
    decreases n, a
  {
    if n == 0 then m else Store(Put(m, a, v % 0x100), a + 1, n - 1, v / 0x100)
  }

  function Rd16(m: Mem, a: int): u16 { Load(m, a, 2) }

  function Rd32(m: Mem, a: int): u32 { Load(m, a, 4) }

  function Rd64(m: Mem, a: int): u64 { Load(m, a, 8) }

  function Wr16(m: Mem, a: int, v: u16): Mem { Store(m, a, 2, v) }

  function Wr32(m: Mem, a: int, v: u32): Mem { Store(m, a, 4, v) }

  function Wr64(m: Mem, a: int, v: u64): Mem { Store(m, a, 8, v) }

  /** The n bytes a copy loop reads from a. */
  function Bytes(m: Mem, a: int, n: nat): (s: seq<u8>)
    ensures |s| == n
    ensures Region(a, n) ==> s == m[a..a + n]
  {
    if n == 0 then [] else Bytes(m, a, n - 1) + [Byte(m, a + n - 1)]
  }

  /** The number that the n bytes at a spell in base 256, lowest first: byte i has weight 256^i. */
  function Word(m: Mem, a: int, n: nat): int
    decreases n, a
  {
    if n == 0 then 0 else Word(m, a, n - 1) + Pow256(n - 1) * Byte(m, a + n - 1)
  }

  lemma {:induction false} WordCons(m: Mem, a: int, n: nat)
    ensures Word(m, a, n + 1) == Byte(m, a) + 0x100 * Word(m, a + 1, n)
    decreases n
  {
    if n > 0 {
      WordCons(m, a, n - 1);
      var p, x := Pow256(n - 1), Byte(m, a + n);
      Regroup(p, x);
    }
  }

  lemma Regroup(p: int, x: int)
    ensures (0x100 * p) * x == 0x100 * (p * x)
  {
  }

  /** A load is that number. */
  lemma {:induction false} LoadIsWord(m: Mem, a: int, n: nat)
    ensures Load(m, a, n) == Word(m, a, n)
    decreases n
  {
    if n > 0 {
      WordCons(m, a, n - 1);
      LoadIsWord(m, a + 1, n - 1);
    }
  }

  /** The memory a copy loop leaves after storing bs at a, a+1, ... in that order. */
  function Fill(m: Mem, a: int, bs: seq<u8>): Mem
  {
    if bs == [] then m else Put(Fill(m, a, bs[..|bs| - 1]), a + |bs| - 1, bs[|bs| - 1])
  }

  /** [a, a+n) is a region of the address space that does not run past its end. */
  predicate Region(a: int, n: int) { 0 <= a && 0 <= n && a + n <= TWO64 }

  /** m and m' hold the same bytes on [a, a+n). */
  ghost predicate Same(m: Mem, m': Mem, a: int, n: int)
    requires Region(a, n)
  {
    forall x :: a <= x < a + n ==> m[x] == m'[x]
  }

  /** m and m' hold the same bytes everywhere except perhaps on [a, a+n). */
  ghost predicate SameBut(m: Mem, m': Mem, a: int, n: int)
    requires Region(a, n)
  {
    forall x :: 0 <= x < TWO64 && !(a <= x < a + n) ==> m[x] == m'[x]
  }

  lemma {:induction false} FillAt(m: Mem, a: int, bs: seq<u8>)
    requires Region(a, |bs|)
    ensures SameBut(m, Fill(m, a, bs), a, |bs|)
    ensures Fill(m, a, bs)[a..a + |bs|] == bs
  {
    if bs != [] {
      FillAt(m, a, bs[..|bs| - 1]);
      var m' := Fill(m, a, bs[..|bs| - 1]);
      forall i | 0 <= i < |bs| ensures Fill(m, a, bs)[a + i] == bs[i] {
        if i < |bs| - 1 {
          assert m'[a + i] == m'[a..a + |bs| - 1][i];
        }
      }
    }
  }

  /** A copy loop stores one byte after the other. */
  lemma FillSnoc(m: Mem, a: int, bs: seq<u8>, v: u8)
    ensures Fill(m, a, bs + [v]) == Put(Fill(m, a, bs), a + |bs|, v)
  {
    assert (bs + [v])[..|bs|] == bs;
  }

  /** Byte i of a copy, also when the copy runs past the end of the address space and goes on at its start. */
  lemma {:induction false} FillByte(m: Mem, a: u64, bs: seq<u8>, i: int)
    requires 0 <= i < |bs| < TWO64
    ensures Fill(m, a, bs)[Wrap(a + i)] == bs[i]
  {
    if i < |bs| - 1 {
      FillByte(m, a, bs[..|bs| - 1], i);
    }
  }

  /** A store changes its own bytes only, and a load of the same width gets the value back. */
  lemma {:induction false} StoreEffect(m: Mem, a: int, n: nat, v: nat)
    requires Region(a, n) && v < Pow256(n)
    ensures SameBut(m, Store(m, a, n, v), a, n) && Load(Store(m, a, n, v), a, n) == v
    decreases n
  {
    if n > 0 {
      StoreEffect(Put(m, a, v % 0x100), a + 1, n - 1, v / 0x100);
    }
  }

  /** A load depends on its own bytes only. */
  lemma {:induction false} LoadSame(m: Mem, m': Mem, a: int, n: nat)
    requires Region(a, n) && Same(m, m', a, n)
    ensures Load(m, a, n) == Load(m', a, n)
    decreases n
  {
    if n > 0 {
      LoadSame(m, m', a + 1, n - 1);
    }
  }
}
