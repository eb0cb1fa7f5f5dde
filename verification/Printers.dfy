/** The number printers of the console driver, and the readers that invert them. */
module Printers {
  import opened Words

  /** The value of a digit character: 0-9, a-f. */
  function DigitValue(c: u8): int {
    if 0x30 <= c < 0x3A then c - 0x30 else if 0x61 <= c < 0x67 then c - 0x57 else -1
  }

  function DigitChar(d: int): u8
    requires 0 <= d < 16
  {
    if d < 10 then 0x30 + d else 0x61 + d - 10
  }

  /** Digits of the given radix only, and no leading zero unless the text is "0". */
  predicate Numeral(s: seq<u8>, radix: int) {
    && s != []
    && (forall i :: 0 <= i < |s| ==> 0 <= DigitValue(s[i]) < radix)
    && (|s| > 1 ==> DigitValue(s[0]) != 0)
  }

  function Parse(s: seq<u8>, radix: nat): int {
    if s == [] then 0 else radix * Parse(s[..|s| - 1], radix) + DigitValue(s[|s| - 1])
  }

  lemma {:induction false} ParseAtLeast(s: seq<u8>, radix: nat)
    requires Numeral(s, radix)
    ensures Parse(s, radix) >= 0 && (|s| > 1 ==> Parse(s, radix) >= radix)
    ensures Parse(s, radix) == 0 ==> DigitValue(s[0]) == 0
    decreases |s|
  {
    if |s| > 1 {
      var p := s[..|s| - 1];
      ParseAtLeast(p, radix);
      assert DigitValue(p[0]) != 0;
      MulAtLeast(radix, Parse(p, radix));
    } else {
      assert s[..0] == [];
      assert Parse(s, radix) == DigitValue(s[0]);
    }
  }

  /** A number has only one numeral, so printing right and reading back right are the same thing. */
  lemma {:induction false} NumeralUnique(s: seq<u8>, t: seq<u8>, radix: nat)
    requires radix <= 16 && Numeral(s, radix) && Numeral(t, radix) && Parse(s, radix) == Parse(t, radix)
    ensures s == t
    decreases |s|
  {
    var n, m := |s| - 1, |t| - 1;
    ParseAtLeast(s, radix);
    ParseAtLeast(t, radix);
    var ds, dt := DigitValue(s[n]), DigitValue(t[m]);
    DivModUnique(Parse(s, radix), radix, Parse(s[..n], radix), ds);
    DivModUnique(Parse(t, radix), radix, Parse(t[..m], radix), dt);
    SameDigit(s[n], t[m]);
    if n > 0 && m > 0 {
      NumeralUnique(s[..n], t[..m], radix);
    }
    assert s == s[..n] + [s[n]] && t == t[..m] + [t[m]];
  }

  lemma SameDigit(c: u8, d: u8)
    requires DigitValue(c) == DigitValue(d) >= 0
    ensures c == d
  {
  }

  function Pow(b: nat, e: nat): nat { if e == 0 then 1 else b * Pow(b, e - 1) }

  /** v * 10^20 exceeds every 64-bit number when v is not zero. */
  lemma TwentyDigits(v: nat)
    requires v >= 1
    ensures v * Pow(10, 20) >= TWO64
  {
    assert Pow(10, 5) == 100000;
    assert Pow(10, 10) == 10000000000;
    assert Pow(10, 15) == 1000000000000000;
    assert Pow(10, 20) == 100000000000000000000;
  }

  /** uart_putdec: at most 20 digits, and reading them back gives v. */
  method PutDec(v: u64) returns (text: seq<u8>)
    ensures Numeral(text, 10) && Parse(text, 10) == v && |text| <= 20
  {
    if v == 0 {
      assert [0x30][..0] == [];
      return [0x30];
    }
    var buf := new u8[20];
    var i, rest := 0, v as int;
    ghost var quotients := [v as int];
    while rest != 0
      invariant 0 <= i <= 20 && 0 <= rest && rest * Pow(10, i) <= v
      invariant |quotients| == i + 1 && quotients[0] == v && quotients[i] == rest
      invariant forall k :: 0 <= k < i ==> quotients[k] == 10 * quotients[k + 1] + (buf[k] - 0x30) && 0x30 <= buf[k] < 0x3A
      invariant rest == 0 ==> 0 < i && buf[i - 1] != 0x30
      decreases rest
    {
      if i == 20 {
        TwentyDigits(rest);
        assert false;
      }
      var next := rest / 10;
      assert next * Pow(10, i + 1) <= v by { Shrinks(rest, next, Pow(10, i), v); }
      buf[i] := 0x30 + rest % 10;
      i := i + 1;
      rest := next;
      quotients := quotients + [next];
    }
    text := [];
    ghost var n := i;
    while i > 0
      invariant 0 <= i <= n && |text| == n - i
      invariant forall k :: 0 <= k < |text| ==> 0 <= DigitValue(text[k]) < 10
      invariant text != [] ==> text[0] == buf[n - 1]
      invariant Parse(text, 10) == quotients[i]
    {
      i := i - 1;
      assert (text + [buf[i]])[..|text|] == text;
      text := text + [buf[i]];
    }
  }

  lemma Shrinks(x: nat, q: nat, p: nat, v: nat)
    requires x * p <= v && q == x / 10
    ensures q * (10 * p) <= v
  {
    assert q * (10 * p) == (10 * q) * p;
    assert 10 * q <= x;
    MulLe(10 * q, x, p);
  }

  lemma MulLe(a: nat, b: nat, p: nat)
    requires a <= b
    ensures a * p <= b * p
  {
  }

  /** v >> (4 * k) */
  function ShiftNibbles(v: nat, k: nat): nat { if k == 0 then v else ShiftNibbles(v, k - 1) / 16 }

  lemma ShiftedOut(v: u64)
    ensures ShiftNibbles(v, 16) == 0
  {
    assert ShiftNibbles(v, 1) < 0x1000000000000000;
    assert ShiftNibbles(v, 2) < 0x100000000000000;
    assert ShiftNibbles(v, 3) < 0x10000000000000;
    assert ShiftNibbles(v, 4) < 0x1000000000000;
    assert ShiftNibbles(v, 5) < 0x100000000000;
    assert ShiftNibbles(v, 6) < 0x10000000000;
    assert ShiftNibbles(v, 7) < 0x1000000000;
    assert ShiftNibbles(v, 8) < 0x100000000;
    assert ShiftNibbles(v, 9) < 0x10000000;
    assert ShiftNibbles(v, 10) < 0x1000000;
    assert ShiftNibbles(v, 11) < 0x100000;
    assert ShiftNibbles(v, 12) < 0x10000;
    assert ShiftNibbles(v, 13) < 0x1000;
    assert ShiftNibbles(v, 14) < 0x100;
    assert ShiftNibbles(v, 15) < 0x10;
  }

  /** Appending a digit to a text without leading zeros. */
  lemma AppendDigit(s: seq<u8>, d: int, radix: nat)
    requires 0 <= d < radix <= 16 && (s != [] ==> Numeral(s, radix) && DigitValue(s[0]) != 0)
    ensures Parse(s + [DigitChar(d)], radix) == radix * Parse(s, radix) + d && Numeral(s + [DigitChar(d)], radix)
    ensures s != [] || d != 0 ==> DigitValue((s + [DigitChar(d)])[0]) != 0
  {
    assert (s + [DigitChar(d)])[..|s|] == s;
  }

  /** uart_puthex without its "0x": 1 to 16 digits, and reading them back gives v. */
  method PutHexDigits(v: u64) returns (text: seq<u8>)
    ensures Numeral(text, 16) && Parse(text, 16) == v && 1 <= |text| <= 16
  {
    text := [];
    var started := false;
    var i := 60;
    ghost var k := 15;
    ShiftedOut(v);
    while i >= 0
      invariant -1 <= k <= 15 && i == 4 * k && |text| <= 15 - k
      invariant Parse(text, 16) == ShiftNibbles(v, k + 1)
      invariant started <==> text != []
      invariant text == [] ==> i >= 0
      invariant text != [] ==> Numeral(text, 16) && (i >= 0 ==> DigitValue(text[0]) != 0)
    {
      var nib := ShiftNibbles(v, i / 4) % 16;
      if nib != 0 || started || i == 0 {
        AppendDigit(text, nib, 16);
        text := text + [DigitChar(nib)];
        started := true;
      }
      i := i - 4;
      k := k - 1;
    }
  }

  /** uart_puthex */
  method PutHex(v: u64) returns (text: seq<u8>)
    ensures |text| >= 3 && text[..2] == [0x30, 0x78] && Numeral(text[2..], 16) && Parse(text[2..], 16) == v && |text| <= 18
  {
    var digits := PutHexDigits(v);
    text := [0x30, 0x78] + digits;
    assert text[2..] == digits;
  }
}
