/** The four list registers of a vCPU and the injection of virtual interrupts into them. */
module ListRegisters {
  import opened Words

  const PENDING := 0x4000_0000_0000_0000   // state field 01
  const GROUP1 := 0x1000_0000_0000_0000

  type Lrs = l: seq<u64> | |l| == 4 witness [0, 0, 0, 0]

  /** ICH_LR.State: 0 idle, 1 pending, 2 active, 3 pending and active. */
  function State(lr: u64): int { lr / PENDING % 4 }

  function Intid(lr: u64): u32 { lr % TWO32 }

  predicate Busy(lr: u64) { State(lr) != 0 }

  predicate HoldsId(lr: u64, id: u32) { Busy(lr) && Intid(lr) == id }

  predicate Queued(l: Lrs, id: u32) { exists i :: 0 <= i < 4 && HoldsId(l[i], id) }

  predicate AllBusy(l: Lrs) { forall i :: 0 <= i < 4 ==> Busy(l[i]) }

  function PendingWord(id: u32): u64 { PENDING + GROUP1 + id }

  /** The architecture forbids two non-idle list registers with the same vINTID. */
  predicate Unique(l: Lrs) {
    forall i, j :: 0 <= i < j < 4 && Busy(l[i]) && Busy(l[j]) ==> Intid(l[i]) != Intid(l[j])
  }

  /** The lowest idle register from i on, 4 if there is none. */
  function FirstIdle(l: Lrs, i: nat): (k: nat)
    requires i <= 4
    ensures i <= k <= 4 && (k < 4 ==> !Busy(l[k])) && forall j :: i <= j < k ==> Busy(l[j])
    decreases 4 - i
  {
    if i == 4 || !Busy(l[i]) then i else FirstIdle(l, i + 1)
  }

  /** The registers vgic_inject leaves. */
  function Inject(l: Lrs, id: u32): Lrs {
    if Queued(l, id) || FirstIdle(l, 0) == 4 then l else l[FirstIdle(l, 0) := PendingWord(id)]
  }

  /** What can become of an interrupt handed to vgic_inject. */
  datatype Fate = Placed(slot: nat) | Merged | Dropped

  function FateOf(l: Lrs, id: u32): Fate {
    if Queued(l, id) then Merged else if FirstIdle(l, 0) == 4 then Dropped else Placed(FirstIdle(l, 0))
  }

  /**
   * Injection alters at most one register, an idle one; the interrupt ends up
   * queued unless all four registers hold other interrupts; uniqueness survives.
   */
  lemma InjectEffect(l: Lrs, id: u32)
    ensures Queued(Inject(l, id), id) <==> FateOf(l, id) != Dropped
    ensures FateOf(l, id) == Dropped <==> AllBusy(l) && !Queued(l, id)
    ensures forall i :: 0 <= i < 4 ==>
              Inject(l, id)[i] == l[i] || (FateOf(l, id) == Placed(i) && !Busy(l[i]) && HoldsId(Inject(l, id)[i], id))
    ensures Unique(l) ==> Unique(Inject(l, id))
  {
    var k, l' := FirstIdle(l, 0), Inject(l, id);
    assert HoldsId(PendingWord(id), id);
    if FateOf(l, id).Placed? {
      assert HoldsId(l'[k], id);
      forall i, j | 0 <= i < j < 4 && Busy(l'[i]) && Busy(l'[j]) && Unique(l) ensures Intid(l'[i]) != Intid(l'[j]) {
        if i == k {
          assert !HoldsId(l[j], id);
        } else if j == k {
          assert !HoldsId(l[i], id);
        }
      }
    }
  }

  /** The fields of an ICH_LR: state 63:62, HW 61, group 60, priority and physical INTID 59:32, virtual INTID 31:0. */
  predicate Fields(lr: u64, state: int, group: int, id: u32) {
    lr / 0x4000_0000_0000_0000 == state && lr / 0x1000_0000_0000_0000 % 4 == group
    && lr / 0x1_0000_0000 % 0x1000_0000 == 0 && lr % 0x1_0000_0000 == id
  }

  /** The interrupt placed is pending (01), group 1, without a hardware link, priority 0, with the number asked for. */
  lemma PlacedIsPending(l: Lrs, id: u32, i: nat)
    requires FateOf(l, id) == Placed(i)
    ensures i < 4 && Fields(Inject(l, id)[i], 1, 1, id)
  {
  }

  /** No other interrupt is gained or lost. */
  lemma InjectKeepsOthers(l: Lrs, id: u32, other: u32)
    requires other != id
    ensures Queued(Inject(l, id), other) <==> Queued(l, other)
  {
    var l' := Inject(l, id);
    assert !HoldsId(PendingWord(id), other);
    if Queued(l, other) {
      var i :| 0 <= i < 4 && HoldsId(l[i], other);
      assert HoldsId(l'[i], other);
    }
    if Queued(l', other) {
      var i :| 0 <= i < 4 && HoldsId(l'[i], other);
      assert HoldsId(l[i], other);
    }
  }

  /**
   * What the hardware does to the registers while the guest runs: acknowledge and
   * end-of-interrupt move the state of a register in use (new states in `acks`).
   */
  function WhileGuestRuns(l: Lrs, acks: seq<int>): Lrs
    requires |acks| == 4
  {
    seq(4, i requires 0 <= i < 4 => WithState(l[i], acks[i]))
  }

  function WithState(lr: u64, state: int): u64 {
    if Busy(lr) && 0 <= state < 4 then lr % PENDING + state * PENDING else lr
  }

  lemma WithStateEffect(lr: u64, state: int)
    ensures Intid(WithState(lr, state)) == Intid(lr)
    ensures Busy(WithState(lr, state)) ==> Busy(lr)
  {
  }

  lemma GuestKeepsUnique(l: Lrs, acks: seq<int>)
    requires |acks| == 4 && Unique(l)
    ensures Unique(WhileGuestRuns(l, acks))
  {
    forall i | 0 <= i < 4
      ensures Intid(WhileGuestRuns(l, acks)[i]) == Intid(l[i]) && (Busy(WhileGuestRuns(l, acks)[i]) ==> Busy(l[i])) {
      WithStateEffect(l[i], acks[i]);
    }
  }

  /** All interrupts in the registers are among ids. */
  predicate Within(l: Lrs, ids: set<int>) { forall i :: 0 <= i < 4 && Busy(l[i]) ==> Intid(l[i]) in ids }

  lemma IdleOk(ids: set<int>)
    ensures Unique([0, 0, 0, 0]) && Within([0, 0, 0, 0], ids)
  {
  }

  lemma InjectWithin(l: Lrs, id: u32, ids: set<int>, ids': set<int>)
    requires Within(l, ids) && ids <= ids' && id in ids'
    ensures Within(Inject(l, id), ids')
  {
    InjectEffect(l, id);
  }

  lemma GuestWithin(l: Lrs, acks: seq<int>, ids: set<int>)
    requires |acks| == 4 && Within(l, ids)
    ensures Within(WhileGuestRuns(l, acks), ids)
  {
    forall i | 0 <= i < 4 && Busy(WhileGuestRuns(l, acks)[i]) ensures Intid(WhileGuestRuns(l, acks)[i]) in ids {
      WithStateEffect(l[i], acks[i]);
    }
  }

  /** One thing that can happen to a vCPU's registers. */
  datatype Event = Injected(id: u32) | Ran(acks: seq<int>)

  function Happen(l: Lrs, e: Event): Lrs {
    match e
    case Injected(id) => Inject(l, id)
    case Ran(acks) => if |acks| == 4 then WhileGuestRuns(l, acks) else l
  }

  function HappenAll(l: Lrs, es: seq<Event>): Lrs {
    if es == [] then l else Happen(HappenAll(l, es[..|es| - 1]), es[|es| - 1])
  }

  /** In every run from vcpu_init, no two busy registers ever hold the same interrupt. */
  lemma {:induction false} AlwaysUnique(es: seq<Event>)
    ensures Unique(HappenAll([0, 0, 0, 0], es))
    decreases |es|
  {
    if es != [] {
      var e, l := es[|es| - 1], HappenAll([0, 0, 0, 0], es[..|es| - 1]);
      AlwaysUnique(es[..|es| - 1]);
      match e {
        case Injected(id) => InjectEffect(l, id);
        case Ran(acks) =>
          if |acks| == 4 {
            GuestKeepsUnique(l, acks);
          }
      }
    }
  }

  /** The guest leaves register i as it is. */
  predicate Leaves(e: Event, i: int)
    requires 0 <= i < 4
  {
    e.Ran? && |e.acks| == 4 ==> !(0 <= e.acks[i] < 4)
  }

  /** A busy register keeps its word through everything but the guest's own moves. */
  lemma {:induction false} StaysPut(l: Lrs, es: seq<Event>, i: int)
    requires 0 <= i < 4 && Busy(l[i]) && forall e :: e in es ==> Leaves(e, i)
    ensures HappenAll(l, es)[i] == l[i]
    decreases |es|
  {
    if es != [] {
      var e := es[|es| - 1];
      assert e in es && Leaves(e, i);
      StaysPut(l, es[..|es| - 1], i);
      if e.Injected? {
        InjectEffect(HappenAll(l, es[..|es| - 1]), e.id);
      }
    }
  }

  /** A placed interrupt stays pending, over any run, until the guest moves its state. */
  lemma PendingStays(l: Lrs, id: u32, i: nat, es: seq<Event>)
    requires FateOf(l, id) == Placed(i) && i < 4 && forall e :: e in es ==> Leaves(e, i)
    ensures Fields(HappenAll(Inject(l, id), es)[i], 1, 1, id)
  {
    PlacedIsPending(l, id, i);
    InjectEffect(l, id);
    StaysPut(Inject(l, id), es, i);
  }

  /** What the guest's moves leave alone: group, hardware link, priority and number. */
  predicate Formed(lr: u64) { Busy(lr) ==> Fields(lr, State(lr), 1, Intid(lr)) }

  lemma WithStateFormed(lr: u64, state: int)
    requires Formed(lr)
    ensures Formed(WithState(lr, state))
  {
    if Busy(lr) && 0 <= state < 4 {
      assert lr % PENDING == GROUP1 + Intid(lr);
      assert WithState(lr, state) == state * PENDING + GROUP1 + Intid(lr);
    }
  }

  /** In every run from vcpu_init, every busy register is group 1, without hardware link, of priority 0. */
  lemma {:induction false} AlwaysFormed(es: seq<Event>, i: int)
    requires 0 <= i < 4
    ensures Formed(HappenAll([0, 0, 0, 0], es)[i])
    decreases |es|
  {
    if es != [] {
      var e, l := es[|es| - 1], HappenAll([0, 0, 0, 0], es[..|es| - 1]);
      AlwaysFormed(es[..|es| - 1], i);
      match e {
        case Injected(id) =>
          if FateOf(l, id) == Placed(i) {
            PlacedIsPending(l, id, i);
          }
          InjectEffect(l, id);
        case Ran(acks) =>
          if |acks| == 4 {
            WithStateFormed(l[i], acks[i]);
          }
      }
    }
  }

  /** vgic_inject on the saved registers of a vCPU. */
  method InjectInto(lr: array<u64>, vintid: u32)
    requires lr.Length == 4
    modifies lr
    ensures lr[..] == Inject(old(lr[..]), vintid)
  {
    var word: u64 := PENDING + GROUP1 + vintid;
    var freeSlot := -1;
    for i := 0 to 4
      invariant lr[..] == old(lr[..])
      invariant forall j :: 0 <= j < i ==> !HoldsId(lr[j], vintid)
      invariant freeSlot == -1 ==> forall j :: 0 <= j < i ==> Busy(lr[j])
      invariant freeSlot != -1 ==> 0 <= freeSlot < i && !Busy(lr[freeSlot]) && forall j :: 0 <= j < freeSlot ==> Busy(lr[j])
    {
      var state := lr[i] / PENDING % 4;
      if state != 0 && lr[i] % TWO32 == vintid {
        assert HoldsId(lr[..][i], vintid);
        return;
      }
      if state == 0 && freeSlot < 0 {
        freeSlot := i;
      }
    }
    assert !Queued(lr[..], vintid);
    if freeSlot >= 0 {
      assert freeSlot == FirstIdle(lr[..], 0);
      lr[freeSlot] := word;
    } else {
      assert FirstIdle(lr[..], 0) == 4;
    }
  }
}
