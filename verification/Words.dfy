/** Machine words as bounded integers, and the modular arithmetic facts the rings rest on. */
module Words {
  const TWO16 := 0x1_0000
  const TWO32 := 0x1_0000_0000
  const TWO64 := 0x1_0000_0000_0000_0000

  datatype Option<T> = None | Some(value: T)

  type u8 = x: int | 0 <= x < 0x100
  type u16 = x: int | 0 <= x < TWO16
  type u32 = x: int | 0 <= x < TWO32
  type u64 = x: int | 0 <= x < TWO64

  /** uint64_t arithmetic wraps modulo 2^64. */
  function Wrap(x: int): u64 { if 0 <= x < TWO64 then x else x % TWO64 }

  /** x | 1 on a 32-bit word. */
  function SetBit0(x: u32): u32 { if x % 2 == 0 then x + 1 else x }

  /** uint16_t increment. */
  function Next16(x: u16): u16 { if x == 0xFFFF then 0 else x + 1 }

  /** A 16-bit counter after n increments. */
  function Advance(x: u16, n: nat): u16
    decreases n
  {
    if n == 0 then x else Advance(Next16(x), n - 1)
  }

  /** Counting n times is adding n modulo 2^16. */
  lemma {:induction false} AdvanceIsSum(x: u16, n: nat)
    ensures Advance(x, n) == (x + n) % TWO16
    decreases n
  {
    if n > 0 {
      AdvanceIsSum(Next16(x), n - 1);
    }
  }

  lemma {:induction false} AdvanceTwice(x: u16, n: nat, k: nat)
    ensures Advance(Advance(x, n), k) == Advance(x, n + k)
    decreases n
  {
    if n > 0 {
      AdvanceTwice(Next16(x), n - 1, k);
    }
  }

  /** How many increments take the 16-bit counter `from` to `to`. */
  function Dist(from: u16, to: u16): (d: nat)
    ensures d < TWO16
  {
    if from <= to then to - from else to - from + TWO16
  }

  lemma AdvanceDist(from: u16, to: u16)
    ensures Advance(from, Dist(from, to)) == to
  {
    AdvanceIsSum(from, Dist(from, to));
  }

  /** Two counters that advance together keep their distance. */
  lemma {:induction false} DistKept(x: u16, y: u16, n: nat)
    ensures Dist(Advance(x, n), Advance(y, n)) == Dist(x, y)
    decreases n
  {
    if n > 0 {
      DistKept(Next16(x), Next16(y), n - 1);
    }
  }

  lemma DistNext(from: u16, to: u16)
    requires from != to
    ensures Dist(Next16(from), to) == Dist(from, to) - 1
  {
  }

  /** Quotient and remainder are determined by x == n*q + r with 0 <= r < n. */
  lemma DivModUnique(x: int, n: int, q: int, r: int)
    requires 0 < n && 0 <= r < n && x == n * q + r
    ensures x % n == r && x / n == q
  {
    var q', r' := x / n, x % n;
    assert x == n * q' + r' && n * (q - q') == r' - r;
    if q > q' {
      assert n * (q - q') >= n by { MulAtLeast(n, q - q'); }
    } else if q < q' {
      assert n * (q' - q) >= n by { MulAtLeast(n, q' - q); }
    }
  }

  lemma MulAtLeast(n: int, k: int)
    requires 0 < n && 1 <= k
    ensures n * k >= n
  {
  }

  lemma ModShift(x: int, n: int, k: int)
    requires 0 < n
    ensures (x - n * k) % n == x % n
  {
    var q, r := x / n, x % n;
    assert x - n * k == n * (q - k) + r;
    DivModUnique(x - n * k, n, q - k, r);
  }

  /** The size of a ring whose indices are 16-bit counters must divide 2^16. */
  predicate RingSize(num: int) {
    0 < num && TWO16 % num == 0
  }

  /** On such a ring, wrapping the counter at 2^16 does not disturb the slot sequence. */
  lemma RingWrap(x: int, num: int)
    requires RingSize(num)
    ensures (x % TWO16) % num == x % num
  {
    var c, k := TWO16 / num, x / TWO16;
    assert TWO16 == num * c;
    assert x % TWO16 == x - TWO16 * k == x - num * (c * k);
    ModShift(x, num, c * k);
  }

  /** Counters fewer than a ring-full apart occupy different slots. */
  lemma SlotsDistinct(u: u16, w: u16, d: nat, num: int)
    requires RingSize(num) && 0 < d < num && w == (u + d) % TWO16
    ensures u % num != w % num
  {
    RingWrap(u + d, num);
    ModDistinct(u, u + d, num);
  }

  lemma ModDistinct(x: int, y: int, n: int)
    requires 0 < n && x < y < x + n
    ensures x % n != y % n
  {
    if x % n == y % n {
      assert y - x == n * (y / n - x / n) + 0;
      DivModUnique(y - x, n, y / n - x / n, 0);
      DivModUnique(y - x, n, 0, y - x);
    }
  }
}
