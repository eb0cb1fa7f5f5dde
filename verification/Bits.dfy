/** Bitwise or, and-not and single bits on words, by their binary digits. */
module Bits {
  import opened Words

  predicate Bit(x: nat, b: nat)
    decreases b
  {
    if b == 0 then x % 2 == 1 else Bit(x / 2, b - 1)
  }

  function Pow2(b: nat): (p: nat)
    ensures 0 < p
  {
    if b == 0 then 1 else 2 * Pow2(b - 1)
  }

  /** x | v */
  function Or(x: nat, v: nat): nat
    decreases x + v
  {
    if x == 0 && v == 0 then 0 else (if x % 2 == 1 || v % 2 == 1 then 1 else 0) + 2 * Or(x / 2, v / 2)
  }

  /** x & ~v */
  function AndNot(x: nat, v: nat): nat
    decreases x
  {
    if x == 0 then 0 else (if x % 2 == 1 && v % 2 == 0 then 1 else 0) + 2 * AndNot(x / 2, v / 2)
  }

  lemma {:induction false} ZeroBits(b: nat)
    ensures !Bit(0, b)
  {
    if b > 0 {
      ZeroBits(b - 1);
    }
  }

  lemma {:induction false} OrBit(x: nat, v: nat, b: nat)
    ensures Bit(Or(x, v), b) <==> Bit(x, b) || Bit(v, b)
    decreases b
  {
    if x == 0 && v == 0 {
      ZeroBits(b);
    } else if b > 0 {
      assert Or(x, v) / 2 == Or(x / 2, v / 2);
      OrBit(x / 2, v / 2, b - 1);
    }
  }

  lemma {:induction false} AndNotBit(x: nat, v: nat, b: nat)
    ensures Bit(AndNot(x, v), b) <==> Bit(x, b) && !Bit(v, b)
    decreases b
  {
    if x == 0 {
      ZeroBits(b);
    } else if b > 0 {
      assert AndNot(x, v) / 2 == AndNot(x / 2, v / 2);
      AndNotBit(x / 2, v / 2, b - 1);
    }
  }

  lemma {:induction false} Pow2Bit(c: nat, b: nat)
    ensures Bit(Pow2(c), b) <==> b == c
    decreases b
  {
    if c == 0 {
      if b > 0 {
        ZeroBits(b - 1);
      }
    } else if b > 0 {
      assert Pow2(c) / 2 == Pow2(c - 1);
      Pow2Bit(c - 1, b - 1);
    }
  }

  lemma {:induction false} OrBound(x: nat, v: nat, n: nat)
    requires x < Pow2(n) && v < Pow2(n)
    ensures Or(x, v) < Pow2(n)
    decreases n
  {
    if n > 0 {
      OrBound(x / 2, v / 2, n - 1);
    }
  }

  lemma {:induction false} AndNotBound(x: nat, v: nat)
    ensures AndNot(x, v) <= x
    decreases x
  {
    if x > 0 {
      AndNotBound(x / 2, v / 2);
    }
  }

  /** A set bit can be cleared, and then the word is smaller. */
  lemma {:induction false} ClearSmaller(x: nat, b: nat)
    requires Bit(x, b)
    ensures AndNot(x, Pow2(b)) < x
    decreases b
  {
    if b == 0 {
      AndNotBound(x / 2, 0);
    } else {
      ZeroBits(b);
      assert Pow2(b) / 2 == Pow2(b - 1) && Pow2(b) % 2 == 0;
      ClearSmaller(x / 2, b - 1);
    }
  }

  lemma {:induction false} Pow2Monotone(a: nat, b: nat)
    requires a <= b
    ensures Pow2(a) <= Pow2(b)
  {
    if a < b {
      Pow2Monotone(a, b - 1);
    }
  }

  /** A word that is not zero has a bit set. */
  lemma {:induction false} SomeBit(x: nat, n: nat) returns (b: nat)
    requires 0 < x < Pow2(n)
    ensures b < n && Bit(x, b)
    decreases n
  {
    if x % 2 == 1 {
      b := 0;
    } else {
      b := SomeBit(x / 2, n - 1);
      b := b + 1;
    }
  }

  // ---- fields of a word ----

  /** x >> n */
  function Shr(x: nat, n: nat): nat
    decreases n
  {
    if n == 0 then x else Shr(x / 2, n - 1)
  }

  /** x & (2^n - 1) */
  function Low(x: nat, n: nat): nat
    decreases n
  {
    if n == 0 then 0 else x % 2 + 2 * Low(x / 2, n - 1)
  }

  lemma Halves(x: nat, n: nat)
    ensures x / 2 / Pow2(n) == x / Pow2(n + 1) && x % Pow2(n + 1) == x % 2 + 2 * (x / 2 % Pow2(n))
  {
    var p, y := Pow2(n), x / 2;
    var d, r := y / p, y % p;
    assert x == 2 * p * d + (2 * r + x % 2);
    DivModUnique(x, 2 * p, d, 2 * r + x % 2);
  }

  lemma {:induction false} ShrIsDiv(x: nat, n: nat)
    ensures Shr(x, n) == x / Pow2(n)
    decreases n
  {
    if n > 0 {
      ShrIsDiv(x / 2, n - 1);
      Halves(x, n - 1);
    }
  }

  lemma {:induction false} LowIsMod(x: nat, n: nat)
    ensures Low(x, n) == x % Pow2(n)
    decreases n
  {
    if n > 0 {
      LowIsMod(x / 2, n - 1);
      Halves(x, n - 1);
    }
  }

  /** Bit b of x >> n is bit n + b of x. */
  lemma {:induction false} ShrBit(x: nat, n: nat, b: nat)
    ensures Bit(Shr(x, n), b) <==> Bit(x, n + b)
    decreases n
  {
    if n > 0 {
      ShrBit(x / 2, n - 1, b);
    }
  }

  /** The low n bits of x, and no others. */
  lemma {:induction false} LowBit(x: nat, n: nat, b: nat)
    ensures Bit(Low(x, n), b) <==> b < n && Bit(x, b)
    decreases n
  {
    if n == 0 {
      ZeroBits(b);
    } else if b > 0 {
      LowBit(x / 2, n - 1, b - 1);
    }
  }

  lemma {:induction false} LowBound(x: nat, n: nat)
    ensures Low(x, n) < Pow2(n)
    decreases n
  {
    if n > 0 {
      LowBound(x / 2, n - 1);
    }
  }

  /** f is the field of x that takes up n bits from bit `from` on. */
  ghost predicate IsField(f: nat, x: nat, from: nat, n: nat) {
    f < Pow2(n) && forall b: nat :: b < n ==> (Bit(f, b) <==> Bit(x, from + b))
  }

  lemma FieldIs(x: nat, from: nat, n: nat)
    ensures IsField(Low(Shr(x, from), n), x, from, n)
  {
    LowBound(Shr(x, from), n);
    forall b: nat | b < n ensures Bit(Low(Shr(x, from), n), b) <==> Bit(x, from + b) {
      LowBit(Shr(x, from), n, b);
      ShrBit(x, from, b);
    }
  }

  /** A word below 2^n is determined by its bits. */
  lemma {:induction false} SameBits(x: nat, y: nat, n: nat)
    requires x < Pow2(n) && y < Pow2(n) && forall b: nat :: b < n ==> (Bit(x, b) <==> Bit(y, b))
    ensures x == y
    decreases n
  {
    if n > 0 {
      assert Bit(x, 0) <==> Bit(y, 0);
      forall b: nat | b < n - 1 ensures Bit(x / 2, b) <==> Bit(y / 2, b) {
        assert Bit(x, b + 1) <==> Bit(y, b + 1);
      }
      SameBits(x / 2, y / 2, n - 1);
    }
  }

  /** There is one such field only. */
  lemma FieldUnique(f: nat, g: nat, x: nat, from: nat, n: nat)
    requires IsField(f, x, from, n) && IsField(g, x, from, n)
    ensures f == g
  {
    SameBits(f, g, n);
  }

  // ---- 32-bit registers ----

  lemma Pow2At32()
    ensures Pow2(16) == TWO16 && Pow2(26) == 0x400_0000 && Pow2(32) == TWO32
  {
    assert Pow2(2) == 0x4;
    assert Pow2(4) == 0x10;
    assert Pow2(6) == 0x40;
    assert Pow2(8) == 0x100;
    assert Pow2(10) == 0x400;
    assert Pow2(12) == 0x1000;
    assert Pow2(14) == 0x4000;
    assert Pow2(16) == 0x10000;
    assert Pow2(18) == 0x40000;
    assert Pow2(20) == 0x100000;
    assert Pow2(22) == 0x400000;
    assert Pow2(24) == 0x1000000;
    assert Pow2(26) == 0x4000000;
    assert Pow2(28) == 0x10000000;
    assert Pow2(30) == 0x40000000;
  }

  lemma Pow2Small()
    ensures Pow2(1) == 2 && Pow2(2) == 4 && Pow2(4) == 16 && Pow2(5) == 32 && Pow2(6) == 0x40
    ensures Pow2(22) == 0x40_0000 && Pow2(24) == 0x100_0000 && Pow2(25) == 0x200_0000
  {
    Pow2At32();
    assert Pow2(3) == 8;
    assert 4 * Pow2(22) == 2 * Pow2(23) == Pow2(24) && 4 * Pow2(24) == 2 * Pow2(25) == Pow2(26);
  }

  lemma Pow2At27()
    ensures Pow2(27) == 0x800_0000
  {
    Pow2At32();
  }

  lemma Pow2Strict(a: nat, b: nat)
    requires a < b
    ensures Pow2(a) < Pow2(b)
  {
    Pow2Monotone(a, b - 1);
  }

  lemma Pow2Below32(b: nat)
    requires b < 32
    ensures Pow2(b) < TWO32
  {
    Pow2At32();
    Pow2Strict(b, 32);
  }

  function Or32(x: u32, v: u32): u32 {
    Pow2At32();
    OrBound(x, v, 32);
    Or(x, v)
  }

  function AndNot32(x: u32, v: u32): u32 {
    AndNotBound(x, v);
    AndNot(x, v)
  }
}
