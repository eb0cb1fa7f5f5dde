/** The emulated PL011: its one-byte receive FIFO, its interrupt mask, and the trapped accesses to it. */
module Vuart {
  import opened Words
  import opened Bits
  import opened VcpuState

  const UART_BASE := 0x0900_0000
  const DR := 0x00
  const FR := 0x18
  const IMSC := 0x38
  const RIS := 0x3C
  const MIS := 0x40

  /** v_rx and v_imsc. */
  datatype Uart = Uart(rx: Option<u8>, imsc: u32)

  function Push(u: Uart, c: int): Uart { u.(rx := Some(c % 0x100)) }

  predicate IrqPending(u: Uart) { u.rx.Some? && Bit(u.imsc, 4) }

  function ReadValue(u: Uart, off: int): u64 {
    match off
    case 0x00 => if u.rx.Some? then u.rx.value else 0
    case 0x18 => 0x80 + if u.rx.None? then 0x10 else 0
    case 0x38 => u.imsc
    case 0x3C => if u.rx.Some? then 0x10 else 0
    case 0x40 => if u.rx.Some? && Bit(u.imsc, 4) then 0x10 else 0
    case 0xFE0 => 0x11
    case 0xFE4 => 0x10
    case 0xFE8 => 0x14
    case 0xFF0 => 0x0d
    case 0xFF4 => 0xf0
    case 0xFF8 => 0x05
    case 0xFFC => 0xb1
    case _ => 0
  }

  function AfterRead(u: Uart, off: int): Uart { if off == DR then u.(rx := None) else u }

  function AfterWrite(u: Uart, off: int, val: u64): Uart { if off == IMSC then u.(imsc := val % TWO32) else u }

  // ---- receive traces ----

  datatype Event = Key(c: int) | Load(off: int) | Store(off: int, val: u64)

  function Step(u: Uart, e: Event): Uart {
    match e
    case Key(c) => Push(u, c)
    case Load(off) => AfterRead(u, off)
    case Store(off, val) => AfterWrite(u, off, val)
  }

  predicate Takes(e: Event) { e.Load? && e.off == DR }

  /** The values that data-register loads return over a trace, for a guest that ignores loads while RXFE is set. */
  function Received(u: Uart, es: seq<Event>): seq<int>
    decreases es
  {
    if es == [] then []
    else
      var got := if Takes(es[0]) && ReadValue(u, FR) / 0x10 % 2 == 0 then [ReadValue(u, es[0].off)] else [];
      got + Received(Step(u, es[0]), es[1..])
  }

  function Keys(es: seq<Event>): seq<int> {
    if es == [] then [] else (if es[0].Key? then [es[0].c % 0x100] else []) + Keys(es[1..])
  }

  /** A data-register load comes before any further key. */
  predicate LoadNext(es: seq<Event>) { es != [] && (Takes(es[0]) || (!es[0].Key? && LoadNext(es[1..]))) }

  /** The keys that are loaded before the next one overwrites them. */
  function InTime(es: seq<Event>): seq<int> {
    if es == [] then [] else (if es[0].Key? && LoadNext(es[1..]) then [es[0].c % 0x100] else []) + InTime(es[1..])
  }

  /** The guest receives exactly the keys loaded in time, once each and in order. */
  lemma {:induction false} ReceivedInTime(u: Uart, es: seq<Event>)
    ensures Received(u, es) == (if u.rx.Some? && LoadNext(es) then [u.rx.value] else []) + InTime(es)
    decreases es
  {
    if es != [] {
      var e, rest, u' := es[0], es[1..], Step(u, es[0]);
      ReceivedInTime(u', rest);
      var head := if u'.rx.Some? && LoadNext(rest) then [u'.rx.value] else [];
      if e.Key? {
        assert u'.rx == Some(e.c % 0x100) && InTime(es) == head + InTime(rest);
      } else if Takes(e) {
        assert u'.rx == None && head == [] && InTime(es) == InTime(rest);
      } else {
        assert u'.rx == u.rx && InTime(es) == InTime(rest);
      }
    }
  }

  /** a can be obtained from b by leaving elements out. */
  predicate Subsequence(a: seq<int>, b: seq<int>)
    decreases b
  {
    a == [] || (b != [] && ((a[0] == b[0] && Subsequence(a[1..], b[1..])) || Subsequence(a, b[1..])))
  }

  lemma {:induction false} InTimeSubsequence(es: seq<Event>)
    ensures Subsequence(InTime(es), Keys(es)) && |InTime(es)| <= |Keys(es)|
    decreases es
  {
    if es != [] {
      InTimeSubsequence(es[1..]);
      var a, b := InTime(es), Keys(es);
      if es[0].Key? {
        assert b[1..] == Keys(es[1..]);
        if LoadNext(es[1..]) {
          assert a[1..] == InTime(es[1..]);
        } else {
          assert a == InTime(es[1..]);
        }
      } else {
        assert a == InTime(es[1..]) && b == Keys(es[1..]);
      }
    }
  }

  /** What a guest receives from an empty FIFO is a subsequence of what was typed: nothing invented, doubled or reordered. */
  lemma ReceivedSubsequence(imsc: u32, es: seq<Event>)
    ensures Subsequence(Received(Uart(None, imsc), es), Keys(es))
  {
    ReceivedInTime(Uart(None, imsc), es);
    assert Received(Uart(None, imsc), es) == InTime(es);
    InTimeSubsequence(es);
  }

  /** Every key is loaded before the next. */
  predicate Prompt(es: seq<Event>) {
    es == [] || ((es[0].Key? ==> LoadNext(es[1..])) && Prompt(es[1..]))
  }

  lemma {:induction false} InTimeAll(es: seq<Event>)
    ensures InTime(es) == Keys(es) <==> Prompt(es)
    decreases es
  {
    if es != [] {
      InTimeAll(es[1..]);
      InTimeSubsequence(es[1..]);
      var a, b := InTime(es[1..]), Keys(es[1..]);
      if !es[0].Key? {
        assert InTime(es) == a && Keys(es) == b;
      } else if LoadNext(es[1..]) {
        var k := es[0].c % 0x100;
        assert InTime(es) == [k] + a && Keys(es) == [k] + b;
        assert ([k] + a)[1..] == a && ([k] + b)[1..] == b;
      } else {
        assert InTime(es) == a && |Keys(es)| == |b| + 1;
      }
    }
  }

  /** Nothing is lost if and only if every key is loaded before the next. */
  lemma PromptLosesNothing(imsc: u32, es: seq<Event>)
    ensures Received(Uart(None, imsc), es) == Keys(es) <==> Prompt(es)
  {
    ReceivedInTime(Uart(None, imsc), es);
    assert Received(Uart(None, imsc), es) == InTime(es);
    InTimeAll(es);
  }

  /** Two keys in a row: the first one is lost. */
  lemma OverrunLoses(u: Uart, a: u8, b: u8)
    ensures Received(u, [Key(a), Key(b), Load(DR), Load(DR)]) == [b]
  {
    var es := [Key(a), Key(b), Load(DR), Load(DR)];
    ReceivedInTime(u, es);
    assert es[1..] == [Key(b), Load(DR), Load(DR)] && es[1..][1..] == [Load(DR), Load(DR)];
    assert es[1..][1..][1..] == [Load(DR)] && es[1..][1..][1..][1..] == [];
    assert InTime([Load(DR)]) == [] && InTime([Load(DR), Load(DR)]) == InTime([Load(DR)]);
    assert InTime(es[1..]) == [b];
  }

  // ---- what the other registers hold ----

  function After(u: Uart, es: seq<Event>): Uart {
    if es == [] then u else Step(After(u, es[..|es| - 1]), es[|es| - 1])
  }

  lemma AfterFew(u: Uart, es: seq<Event>)
    ensures |es| == 0 ==> After(u, es) == u
    ensures |es| == 1 ==> After(u, es) == Step(u, es[0])
    ensures |es| == 2 ==> After(u, es) == Step(Step(u, es[0]), es[1])
  {
    if |es| == 2 {
      assert es[..1][..0] == [] && After(u, es[..1]) == Step(u, es[0]);
    }
  }

  lemma {:induction false} AfterConcat(u: Uart, es: seq<Event>, more: seq<Event>)
    ensures After(u, es + more) == After(After(u, es), more)
    decreases |more|
  {
    if more == [] {
      assert es + more == es;
    } else {
      AfterConcat(u, es, more[..|more| - 1]);
      assert (es + more)[..|es + more| - 1] == es + more[..|more| - 1];
    }
  }

  /** The latest value stored to the mask register, `before` if there was none. */
  function LatestMask(es: seq<Event>, before: u32): u32 {
    if es == [] then before
    else
      var e := es[|es| - 1];
      if e.Store? && e.off == 0x38 then e.val % 0x1_0000_0000 else LatestMask(es[..|es| - 1], before)
  }

  /** The latest key not yet loaded, `before` if neither key nor load came since the start. */
  function Waits(es: seq<Event>, before: Option<u8>): Option<u8> {
    if es == [] then before
    else
      match es[|es| - 1]
      case Key(c) => Some(c % 0x100)
      case Load(off) => if off == 0 then None else Waits(es[..|es| - 1], before)
      case Store(_, _) => Waits(es[..|es| - 1], before)
  }

  lemma {:induction false} AfterIs(u: Uart, es: seq<Event>)
    ensures After(u, es).imsc == LatestMask(es, u.imsc) && After(u, es).rx == Waits(es, u.rx)
    decreases |es|
  {
    if es != [] {
      AfterIs(u, es[..|es| - 1]);
    }
  }

  /**
   * The registers over any trace: the data register reads the key that waits, or 0; the
   * mask register reads back the latest value stored to it; the receive interrupt is
   * asserted exactly when a key waits and bit 4 of that mask is set.
   */
  lemma RegistersExact(u: Uart, es: seq<Event>)
    ensures var t, key, mask := After(u, es), Waits(es, u.rx), LatestMask(es, u.imsc);
      && ReadValue(t, 0x00) == (if key.Some? then key.value else 0)
      && ReadValue(t, 0x38) == mask
      && (IrqPending(t) <==> key.Some? && Bit(mask, 4))
  {
    AfterIs(u, es);
  }

  /** The PrimeCell identification: peripheral 0x00141011, cell 0xB105F00D, one byte a word. */
  lemma Identification(u: Uart)
    ensures ReadValue(u, 0xFE0) + 0x100 * ReadValue(u, 0xFE4) + 0x1_0000 * ReadValue(u, 0xFE8)
            + 0x100_0000 * ReadValue(u, 0xFEC) == 0x0014_1011
    ensures ReadValue(u, 0xFF0) + 0x100 * ReadValue(u, 0xFF4) + 0x1_0000 * ReadValue(u, 0xFF8)
            + 0x100_0000 * ReadValue(u, 0xFFC) == 0xB105_F00D
  {
  }

  /** RXFE, RIS, MIS and the interrupt query all describe the same FIFO; the transmit side is always empty and never full. */
  lemma FlagsAgree(u: Uart)
    ensures Bit(ReadValue(u, FR), 4) <==> u.rx.None?
    ensures Bit(ReadValue(u, RIS), 4) <==> u.rx.Some?
    ensures Bit(ReadValue(u, MIS), 4) <==> IrqPending(u)
    ensures ReadValue(u, MIS) != 0 <==> IrqPending(u)
    ensures ReadValue(u, FR) / 0x80 % 2 == 1 && ReadValue(u, FR) / 0x20 % 2 == 0
  {
    assert Bit(0x90, 4) && !Bit(0x80, 4) && Bit(0x10, 4) && !Bit(0, 4) by {
      ZeroBits(4);
      assert Bit(0x90, 4) == Bit(0x48, 3) == Bit(0x24, 2) == Bit(0x12, 1) == Bit(9, 0);
      assert Bit(0x80, 4) == Bit(0x40, 3) == Bit(0x20, 2) == Bit(0x10, 1) == Bit(8, 0);
      assert Bit(0x10, 4) == Bit(8, 3) == Bit(4, 2) == Bit(2, 1) == Bit(1, 0);
    }
  }

  /** The device as the code keeps it: -1 stands for an empty FIFO. */
  class Device {
    var rx: int
    var imsc: u32
    var out: seq<u8>

    ghost predicate Valid()
      reads this
    {
      -1 <= rx < 0x100
    }

    ghost function State(): Uart
      requires Valid()
      reads this
    {
      Uart(if rx < 0 then None else Some(rx), imsc)
    }

    constructor ()
      ensures Valid() && State() == Uart(None, 0) && out == []
    {
      rx, imsc, out := -1, 0, [];
    }

    method PushRx(c: int)
      requires Valid()
      modifies this`rx
      ensures Valid() && State() == Push(old(State()), c)
    {
      rx := c % 0x100;
    }

    method RxIrqPending() returns (r: bool)
      requires Valid()
      ensures r == IrqPending(State())
    {
      r := rx >= 0 && Bit(imsc, 4);
    }

    method WriteReg(off: int, val: u64)
      requires Valid()
      modifies this
      ensures Valid() && State() == AfterWrite(old(State()), off, val) && out == old(out) + (if off == 0x00 then [val % 0x100] else [])
    {
      match off {
        case 0x00 => out := out + [val % 0x100];
        case 0x38 => imsc := val % TWO32;
        case _ =>
      }
    }

    method ReadReg(off: int) returns (val: u64)
      requires Valid()
      modifies this`rx
      ensures Valid() && val == ReadValue(old(State()), off) && State() == AfterRead(old(State()), off)
    {
      match off {
        case 0x00 =>
          var c := rx;
          rx := -1;
          val := if c < 0 then 0 else c;
        case 0x18 => val := 0x80 + if rx < 0 then 0x10 else 0;
        case 0x38 => val := imsc;
        case 0x3C => val := if rx >= 0 then 0x10 else 0;
        case 0x40 => val := if rx >= 0 && Bit(imsc, 4) then 0x10 else 0;
        case 0xFE0 => val := 0x11;
        case 0xFE4 => val := 0x10;
        case 0xFE8 => val := 0x14;
        case 0xFEC => val := 0x00;
        case 0xFF0 => val := 0x0d;
        case 0xFF4 => val := 0xf0;
        case 0xFF8 => val := 0x05;
        case 0xFFC => val := 0xb1;
        case _ => val := 0;
      }
    }

    /** mmio_emulate */
    method Emulate(v: TrapFrame, ipa: u64)
      requires Valid() && |v.x| == 31 && UART_BASE <= ipa
      modifies this, v`x, v`pc
      ensures Valid() && v.pc == Wrap(old(v.pc) + 4)
      ensures var s, off := DecodeSyndrome(v.exitEsr), ipa - 0x0900_0000;
        if !s.valid then State() == old(State()) && out == old(out) && v.x == old(v.x)
        else if s.write then
          && State() == Step(old(State()), Store(off, Stored(old(v.x), s.reg)))
          && out == old(out) + (if off == 0x00 then [Stored(old(v.x), s.reg) % 0x100] else []) && v.x == old(v.x)
        else
          && State() == Step(old(State()), Load(off)) && out == old(out)
          && v.x == Loaded(old(v.x), s.reg, ReadValue(old(State()), off))
    {
      var s, off := DecodeSyndrome(v.exitEsr), ipa - UART_BASE;
      if s.valid {
        if s.write {
          WriteReg(off, Stored(v.x, s.reg));
        } else {
          var val := ReadReg(off);
          v.x := Loaded(v.x, s.reg, val);
        }
      }
      v.pc := Wrap(v.pc + 4);
    }
  }
}
