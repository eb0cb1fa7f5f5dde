/**
 * Stage-2 translation: level-1 tables of 512 one-GiB entries. The tables live in
 * host memory, where the hardware walk reads them and every store could hit them.
 */
module Stage2 {
  import opened Words
  import opened HostMemory
  import opened Virtqueue

  const GIB := 0x4000_0000
  const ENTRIES := 512
  const IPA_LIMIT := 0x80_0000_0000     // T0SZ = 25: 39-bit guest addresses
  const PA_LIMIT := 0x100_0000_0000     // PS: 40-bit host addresses
  const NORMAL := 0x7FD
  const DEVICE := 0x4C1

  type Table = t: seq<u64> | |t| == ENTRIES ghost witness seq(ENTRIES, i => 0)

  /** (ipa >> 30) & 0x1FF */
  function Index(ipa: u64): (i: int)
    ensures 0 <= i < ENTRIES
  {
    ipa / GIB % ENTRIES
  }

  /** a & ~0x3FFFFFFF */
  function RoundDown(a: u64): u64 { a - a % GIB }

  /** A block descriptor; its attributes occupy bits the rounded address leaves clear. */
  function BlockEntry(a: u64, attributes: int): u64
    requires 0 <= attributes < GIB
  {
    RoundDown(a) + attributes
  }

  function Entry(m: Mem, tb: u64, i: int): u64 { Rd64(m, tb + 8 * i) }

  predicate TablePlace(tb: u64) { Region(tb, 8 * ENTRIES) }

  function TableAt(m: Mem, tb: u64): Table {
    seq(ENTRIES, i requires 0 <= i < ENTRIES => Entry(m, tb, i))
  }

  /** The hardware walk: index by bits 38:30, require a block descriptor, keep the offset. */
  function Walk(t: Table, ipa: u64): Option<u64> {
    if ipa >= IPA_LIMIT then None
    else
      var d := t[ipa / GIB];
      var out := d / GIB % 0x4_0000 * GIB;
      if d % 4 == 1 && out < PA_LIMIT then Some(out + ipa % GIB) else None
  }

  function EmptyTable(): Table { seq(ENTRIES, i => 0) }

  /** What stage2_build_vm leaves in the table. */
  function VmTable(ipa: u64, pa: u64): Table { EmptyTable()[Index(ipa) := BlockEntry(pa, NORMAL)] }

  function Mapped(t: Table, ipa: u64, attributes: int): Table
    requires 0 <= attributes < GIB
  {
    t[Index(ipa) := BlockEntry(ipa, attributes)]
  }

  // ---- tables in memory ----

  function SetEntry(m: Mem, tb: u64, i: int, d: u64): Mem { Wr64(m, tb + 8 * i, d) }

  lemma SetEntryEffect(m: Mem, tb: u64, i: int, d: u64)
    requires TablePlace(tb) && 0 <= i < ENTRIES
    ensures TableAt(SetEntry(m, tb, i, d), tb) == TableAt(m, tb)[i := d]
    ensures SameBut(m, SetEntry(m, tb, i, d), tb, 8 * ENTRIES)
  {
    var m' := SetEntry(m, tb, i, d);
    StoreEffect(m, tb + 8 * i, 8, d);
    forall j | 0 <= j < ENTRIES && j != i ensures Entry(m', tb, j) == Entry(m, tb, j) {
      LoadSame(m, m', tb + 8 * j, 8);
    }
    assert TableAt(m', tb) == TableAt(m, tb)[i := d];
  }

  /** A table outside the written bytes is still the same table. */
  lemma TableSame(m: Mem, m': Mem, tb: u64)
    requires TablePlace(tb) && Same(m, m', tb, 8 * ENTRIES)
    ensures TableAt(m', tb) == TableAt(m, tb)
  {
    forall j | 0 <= j < ENTRIES ensures Entry(m', tb, j) == Entry(m, tb, j) {
      LoadSame(m, m', tb + 8 * j, 8);
    }
    assert TableAt(m', tb) == TableAt(m, tb);
  }

  // ---- per-VM tables ----

  /** A VM's table translates its own block, and traps everything else. */
  lemma VmWalk(ipa: u64, pa: u64, a: u64)
    requires ipa < IPA_LIMIT && pa < PA_LIMIT
    ensures Walk(VmTable(ipa, pa), a) ==
            if RoundDown(a) == RoundDown(ipa) then Some(RoundDown(pa) + a % GIB) else None
  {
    assert RoundDown(a) == GIB * (a / GIB) && RoundDown(ipa) == GIB * (ipa / GIB);
    if a < IPA_LIMIT && a / GIB == ipa / GIB {
      EntryFields(pa / GIB, NORMAL);
      assert BlockEntry(pa, NORMAL) == pa / GIB * GIB + NORMAL;
    }
  }

  /** The device's offset addition, modulo 2^64, is the walk, for every address of the block. */
  lemma OffsetIsWalk(ipa: u64, pa: u64, a: u64)
    requires ipa < IPA_LIMIT && pa < PA_LIMIT && ipa % GIB == 0 && pa % GIB == 0
    requires ipa <= a < ipa + GIB
    ensures Walk(VmTable(ipa, pa), a) == Some(Wrap(a + Wrap(pa - ipa))) && Wrap(a + Wrap(pa - ipa)) == pa + (a - ipa)
  {
    VmWalk(ipa, pa, a);
  }

  /**
   * A queue the guest places inside its block: the rings the device computes from
   * the translated base are the translations of the guest's own rings.
   */
  lemma QueueIsWalk(ipa: u64, pa: u64, g: Queue, q: Queue)
    requires ipa < IPA_LIMIT && pa < PA_LIMIT && ipa % GIB == 0 && pa % GIB == 0
    requires ipa <= g.base && g.LaidOut() && g.Used() + 4 + 8 * g.num <= ipa + GIB
    requires q == Queue(Wrap(g.base + Wrap(pa - ipa)), g.num)
    ensures q.LaidOut() && (forall x :: q.InUsed(x) || q.InRings(x) ==> pa <= x < pa + GIB)
    ensures Walk(VmTable(ipa, pa), g.base) == Some(q.base)
    ensures Walk(VmTable(ipa, pa), g.Avail()) == Some(q.Avail())
    ensures Walk(VmTable(ipa, pa), g.Used()) == Some(q.Used())
  {
    g.LayoutDisjoint(0);
    OffsetIsWalk(ipa, pa, g.base);
    var q' := ShiftedQueue(g, pa - ipa, ipa, pa);
    assert q == q';
    WalkTo(ipa, pa, g.Avail(), q.Avail());
    WalkTo(ipa, pa, g.Used(), q.Used());
  }

  lemma WalkTo(ipa: u64, pa: u64, a: u64, b: u64)
    requires ipa < IPA_LIMIT && pa < PA_LIMIT && ipa % GIB == 0 && pa % GIB == 0
    requires ipa <= a < ipa + GIB && b == pa + (a - ipa)
    ensures Walk(VmTable(ipa, pa), a) == Some(b)
  {
    OffsetIsWalk(ipa, pa, a);
  }

  lemma ShiftedQueue(g: Queue, d: int, ipa: int, pa: int) returns (q: Queue)
    requires d == pa - ipa && ipa % GIB == 0 && pa % GIB == 0 && 0 <= pa < PA_LIMIT
    requires g.LaidOut() && 0 <= ipa <= g.base && g.Used() + 4 + 8 * g.num <= ipa + GIB
    ensures q == Queue(g.base + d, g.num) && q.LaidOut()
    ensures q.Avail() == g.Avail() + d && q.Used() == g.Used() + d
  {
    q := Queue(g.base + d, g.num);
    g.LayoutDisjoint(0);
    var end, c := g.base + 16 * g.num + 6 + 2 * g.num + 4095, pa / GIB - ipa / GIB;
    assert d == 4096 * (c * 0x4_0000);
    ModShift(end + d, 4096, c * 0x4_0000);
  }

  /** Two VMs on different host blocks share no host address, whatever guest addresses they use. */
  lemma VmsDisjoint(ipa: u64, pa: u64, ipa': u64, pa': u64, a: u64, a': u64)
    requires ipa < IPA_LIMIT && pa < PA_LIMIT && ipa' < IPA_LIMIT && pa' < PA_LIMIT && RoundDown(pa) != RoundDown(pa')
    ensures var w, w' := Walk(VmTable(ipa, pa), a), Walk(VmTable(ipa', pa'), a');
            w.Some? && w'.Some? ==> w.value != w'.value
  {
    VmWalk(ipa, pa, a);
    VmWalk(ipa', pa', a');
  }

  /** The emulated GIC, UART and virtio windows all lie in guest block 0, so a VM whose RAM lies elsewhere traps on them. */
  lemma WindowsTrap(ipa: u64, pa: u64, a: u64)
    requires GIB <= ipa < IPA_LIMIT && pa < PA_LIMIT
    requires || 0x0800_0000 <= a < 0x0801_0000 || 0x080A_0000 <= a < 0x0812_0000
             || 0x0900_0000 <= a < 0x0900_1000 || 0x0A00_0000 <= a < 0x0A00_0400
    ensures Walk(VmTable(ipa, pa), a) == None
  {
    VmWalk(ipa, pa, a);
  }

  /** The field of a descriptor whose lowest bit has weight `low` and which takes w values. */
  function FieldAt(d: u64, low: int, w: int): int
    requires 0 < low && 0 < w
  {
    d / low % w
  }

  /**
   * The attribute fields the two kinds of block carry: a block descriptor (01), MemAttr 1111
   * or 0000, read and write (11), inner or no shareability, access flag set.
   */
  lemma DescriptorFields(a: u64)
    ensures var n, d := BlockEntry(a, NORMAL), BlockEntry(a, DEVICE);
      && FieldAt(n, 1, 4) == 1 && FieldAt(n, 4, 16) == 15 && FieldAt(n, 0x40, 4) == 3 && FieldAt(n, 0x100, 4) == 3 && FieldAt(n, 0x400, 2) == 1
      && FieldAt(d, 1, 4) == 1 && FieldAt(d, 4, 16) == 0 && FieldAt(d, 0x40, 4) == 3 && FieldAt(d, 0x100, 4) == 0 && FieldAt(d, 0x400, 2) == 1
      && n / GIB == d / GIB == a / GIB
  {
    var k := a / GIB;
    assert RoundDown(a) == GIB * k;
    FieldsOf(k, NORMAL);
    FieldsOf(k, DEVICE);
  }

  lemma FieldsOf(k: nat, attributes: int)
    requires 0 <= attributes < 0x800
    ensures var d := GIB * k + attributes;
      && d / 1 % 4 == attributes / 1 % 4 && d / 4 % 16 == attributes / 4 % 16 && d / 0x40 % 4 == attributes / 0x40 % 4
      && d / 0x100 % 4 == attributes / 0x100 % 4 && d / 0x400 % 2 == attributes / 0x400 % 2 && d / GIB == k
  {
    FieldOf(k, attributes, 1, 4, 0x1000_0000);
    FieldOf(k, attributes, 4, 16, 0x100_0000);
    FieldOf(k, attributes, 0x40, 4, 0x40_0000);
    FieldOf(k, attributes, 0x100, 4, 0x10_0000);
    FieldOf(k, attributes, 0x400, 2, 0x8_0000);
    DivModUnique(GIB * k + attributes, GIB, k, attributes);
  }

  /** A field below bit 30 does not see the address. */
  lemma FieldOf(k: int, a: int, low: int, w: int, c: int)
    requires 0 < low && 0 < w && GIB == low * (w * c)
    ensures (GIB * k + a) / low % w == a / low % w
  {
    var q, r, t := a / low, a % low, w * (c * k);
    assert GIB * k == low * t;
    DivModUnique(GIB * k + a, low, t + q, r);
    ModShift(t + q, w, c * k);
  }

  // ---- the global table: identity mappings and fault-in ----

  /** Every valid entry maps its own block to itself, with Normal or Device attributes. */
  ghost predicate Identity(t: Table) {
    forall i :: 0 <= i < ENTRIES && t[i] % 4 == 1 ==> t[i] == i * GIB + NORMAL || t[i] == i * GIB + DEVICE
  }

  predicate Attributes(a: int) { a == NORMAL || a == DEVICE }

  /** Mapping keeps the table an identity table exactly when the address is one the table can index. */
  lemma MapKeepsIdentity(t: Table, ipa: u64, a: int)
    requires Identity(t) && Attributes(a)
    ensures Identity(Mapped(t, ipa, a)) <==> ipa < IPA_LIMIT
  {
    var t', i := Mapped(t, ipa, a), Index(ipa);
    if ipa < IPA_LIMIT {
      assert ipa / GIB == i;
    } else {
      assert t'[i] % 4 == 1 && t'[i] >= IPA_LIMIT;
    }
  }

  /** The faulting address translates to itself after handling, exactly when it is such an address. */
  lemma FaultInTranslates(t: Table, ipa: u64, a: int)
    requires Attributes(a)
    ensures Walk(Mapped(t, ipa, a), ipa) == Some(ipa) <==> ipa < IPA_LIMIT
  {
    if ipa < IPA_LIMIT {
      var i := ipa / GIB;
      EntryFields(i, a);
      assert Index(ipa) == i && BlockEntry(ipa, a) == i * GIB + a;
    }
  }

  lemma EntryFields(i: int, a: int)
    requires Attributes(a)
    ensures (i * GIB + a) / GIB == i && (i * GIB + a) % 4 == 1
  {
  }

  /** 0x8000000000, the first address past the table, is mapped over entry 0 and still does not translate. */
  lemma FaultInFails(t: Table)
    ensures Walk(Mapped(t, IPA_LIMIT, NORMAL), IPA_LIMIT) == None
    ensures Walk(Mapped(t, IPA_LIMIT, NORMAL), 0) == Some(IPA_LIMIT)
  {
  }

  /** A request to map a block: (address, attributes). */
  datatype Request = Request(ipa: u64, attributes: int)

  ghost predicate GoodRequests(rs: seq<Request>) {
    forall r :: r in rs ==> r.ipa < IPA_LIMIT && Attributes(r.attributes)
  }

  function MapAll(t: Table, rs: seq<Request>): Table
    requires GoodRequests(rs)
  {
    if rs == [] then t
    else
      var r := rs[|rs| - 1];
      Mapped(MapAll(t, rs[..|rs| - 1]), r.ipa, r.attributes)
  }

  /** The attributes the latest request for block i asked for. */
  function LastAsked(rs: seq<Request>, i: int): Option<int> {
    if rs == [] then None
    else if Index(rs[|rs| - 1].ipa) == i then Some(rs[|rs| - 1].attributes)
    else LastAsked(rs[..|rs| - 1], i)
  }

  /** After any sequence of requests each entry is the identity block last asked for, or untouched. */
  lemma {:induction false} MapAllMeaning(t: Table, rs: seq<Request>, i: int)
    requires GoodRequests(rs) && 0 <= i < ENTRIES
    ensures MapAll(t, rs)[i] == match LastAsked(rs, i) { case None => t[i] case Some(a) => i * GIB + a }
    decreases |rs|
  {
    if rs != [] {
      var r := rs[|rs| - 1];
      assert r in rs && r.ipa / GIB == Index(r.ipa);
      MapAllMeaning(t, rs[..|rs| - 1], i);
    }
  }

  /** Blocks below n that do not translate. */
  function Unmapped(t: Table, n: nat): nat
    requires n <= ENTRIES
  {
    if n == 0 then 0 else Unmapped(t, n - 1) + if t[n - 1] % 4 == 1 then 0 else 1
  }

  lemma {:induction false} UnmappedSet(t: Table, i: int, d: u64, n: nat)
    requires 0 <= i < ENTRIES && n <= ENTRIES && t[i] % 4 != 1 && d % 4 == 1
    ensures Unmapped(t[i := d], n) == Unmapped(t, n) - if i < n then 1 else 0
    decreases n
  {
    if n > 0 {
      UnmappedSet(t, i, d, n - 1);
    }
  }

  /** A run of stage-2 faults, each handled by mapping the faulting block. */
  ghost predicate FaultRun(ts: seq<Table>, faults: seq<u64>) {
    && |ts| == |faults| + 1
    && forall k :: 0 <= k < |faults| ==> FaultIn(ts[k], faults[k], ts[k + 1])
  }

  /** The address faults in an identity table, and its block is then mapped as RAM. */
  ghost predicate FaultIn(t: Table, ipa: u64, t': Table) {
    ipa < IPA_LIMIT && Walk(t, ipa) == None && t' == Mapped(t, RoundDown(ipa), NORMAL)
  }

  lemma FaultInStep(t: Table, ipa: u64, t': Table)
    requires Identity(t) && FaultIn(t, ipa, t')
    ensures Identity(t') && Walk(t', ipa) == Some(ipa) && Unmapped(t', ENTRIES) == Unmapped(t, ENTRIES) - 1
  {
    MapKeepsIdentity(t, RoundDown(ipa), NORMAL);
    var i := ipa / GIB;
    assert Index(RoundDown(ipa)) == i;
    assert t[i] % 4 != 1;
    UnmappedSet(t, i, BlockEntry(RoundDown(ipa), NORMAL), ENTRIES);
  }

  /** Every fault-in of a run uses up one unmapped block. */
  lemma {:induction false} FaultRunProgress(ts: seq<Table>, faults: seq<u64>)
    requires FaultRun(ts, faults) && Identity(ts[0])
    ensures Identity(ts[|faults|])
    ensures Unmapped(ts[|faults|], ENTRIES) + |faults| == Unmapped(ts[0], ENTRIES)
    decreases |faults|
  {
    if faults != [] {
      var k := |faults| - 1;
      FaultRunProgress(ts[..k + 1], faults[..k]);
      FaultInStep(ts[k], faults[k], ts[k + 1]);
    }
  }

  lemma {:induction false} EmptyUnmapped(n: nat)
    requires n <= ENTRIES
    ensures Unmapped(EmptyTable(), n) == n
  {
    if n > 0 {
      EmptyUnmapped(n - 1);
    }
  }

  function InitialTable(): Table { Mapped(EmptyTable(), GIB, NORMAL) }

  /** After stage2_init at most 511 faults can ever be taken. */
  lemma FaultBound(ts: seq<Table>, faults: seq<u64>)
    requires FaultRun(ts, faults) && ts[0] == InitialTable()
    ensures |faults| <= 511
  {
    EmptyUnmapped(ENTRIES);
    UnmappedSet(EmptyTable(), 1, BlockEntry(GIB, NORMAL), ENTRIES);
    MapKeepsIdentity(EmptyTable(), GIB, NORMAL);
    FaultRunProgress(ts, faults);
  }
}
