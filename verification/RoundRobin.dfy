/** run_vcpus: round-robin over n vCPUs until each has made its budget of hypercalls. */
module RoundRobin {

  /** How a guest came back, as far as the scheduler cares. */
  datatype Exit = Hypercall | Abort | Unexpected

  /** vCPU `who` ran and came back with `how`. */
  datatype Slice = Slice(who: int, how: Exit)

  function Runs(trace: seq<Slice>, i: int): nat {
    if trace == [] then 0 else Runs(trace[..|trace| - 1], i) + if trace[|trace| - 1].who == i then 1 else 0
  }

  function Hypercalls(trace: seq<Slice>, i: int): nat {
    if trace == [] then 0
    else Hypercalls(trace[..|trace| - 1], i) + if trace[|trace| - 1] == Slice(i, Hypercall) then 1 else 0
  }

  /** The vCPU's last slice ended in an exit the scheduler does not know. */
  predicate Crashed(trace: seq<Slice>, i: int) { Slice(i, Unexpected) in trace }

  /** Number of vCPUs below n still live. */
  function Live(halted: seq<bool>, n: nat): nat
    requires n <= |halted|
  {
    if n == 0 then 0 else Live(halted, n - 1) + if halted[n - 1] then 0 else 1
  }

  lemma {:induction false} LiveHalts(halted: seq<bool>, i: nat, n: nat)
    requires i < |halted| && n <= |halted| && !halted[i]
    ensures Live(halted[i := true], n) == Live(halted, n) - if i < n then 1 else 0
    decreases n
  {
    if n > 0 {
      LiveHalts(halted, i, n - 1);
    }
  }

  lemma {:induction false} LiveSome(halted: seq<bool>, n: nat) returns (i: nat)
    requires n <= |halted| && Live(halted, n) > 0
    ensures i < n && !halted[i]
    decreases n
  {
    if !halted[n - 1] {
      i := n - 1;
    } else {
      i := LiveSome(halted, n - 1);
    }
  }

  lemma {:induction false} LiveAll(halted: seq<bool>, n: nat)
    requires n <= |halted| && forall i :: 0 <= i < n ==> !halted[i]
    ensures Live(halted, n) == n
  {
    if n > 0 {
      LiveAll(halted, n - 1);
    }
  }

  lemma {:induction false} LiveWitness(halted: seq<bool>, n: nat, i: nat)
    requires i < n <= |halted| && !halted[i]
    ensures Live(halted, n) > 0
    decreases n
  {
    if i < n - 1 {
      LiveWitness(halted, n - 1, i);
    }
  }

  /** A budget below 1 still lets one hypercall through before the comparison. */
  function Cap(budget: int): int { if budget < 1 then 1 else budget }

  /** vCPU i has stopped: it has used up its budget, or crashed. */
  predicate Done(trace: seq<Slice>, budget: int, i: int) { Hypercalls(trace, i) == Cap(budget) || Crashed(trace, i) }

  /** Who ran last, -1 at the start. */
  function Last(trace: seq<Slice>): int { if trace == [] then -1 else trace[|trace| - 1].who }

  /** j comes after `last` and before i in the cyclic order of 0..n-1. */
  predicate Between(last: int, j: int, i: int) { if last < i then last < j < i else last < j || j < i }

  /** It is i's turn: i is the next vCPU after the one that ran last that has not stopped. */
  ghost predicate Turn(trace: seq<Slice>, n: nat, budget: int, i: int) {
    && 0 <= i < n && !Done(trace, budget, i)
    && forall j :: 0 <= j < n && Between(Last(trace), j, i) ==> Done(trace, budget, j)
  }

  /** Every slice went to the vCPU whose turn it was. */
  ghost predicate InTurn(trace: seq<Slice>, n: nat, budget: int) {
    forall k :: 0 <= k < |trace| ==> Turn(trace[..k], n, budget, trace[k].who)
  }

  /** The exits were handled one by one from the first. */
  ghost predicate Consumed(trace: seq<Slice>, exits: seq<Exit>) {
    |trace| <= |exits| && forall k :: 0 <= k < |trace| ==> trace[k].how == exits[k]
  }

  lemma InTurnSnoc(trace: seq<Slice>, n: nat, budget: int, s: Slice)
    requires InTurn(trace, n, budget) && Turn(trace, n, budget, s.who)
    ensures InTurn(trace + [s], n, budget)
  {
    var t := trace + [s];
    forall k | 0 <= k < |t| ensures Turn(t[..k], n, budget, t[k].who) {
      assert t[..k] == if k < |trace| then trace[..k] else trace;
    }
  }

  /** What holds whenever the scheduler is about to look at vCPU i in round `rounds`. */
  ghost predicate Fair(trace: seq<Slice>, halted: seq<bool>, hcalls: seq<int>, active: int, budget: int, rounds: int, i: int) {
    && |hcalls| == |halted|
    && active == Live(halted, |halted|)
    && forall k :: 0 <= k < |halted| ==>
         FairTo(trace, k, halted[k], hcalls[k], budget, rounds + if k < i then 1 else 0)
  }

  lemma RunsSnoc(trace: seq<Slice>, s: Slice, k: int)
    ensures Runs(trace + [s], k) == Runs(trace, k) + if s.who == k then 1 else 0
    ensures Hypercalls(trace + [s], k) == Hypercalls(trace, k) + if s == Slice(k, Hypercall) then 1 else 0
    ensures Crashed(trace + [s], k) <==> Crashed(trace, k) || s == Slice(k, Unexpected)
  {
    assert (trace + [s])[..|trace|] == trace;
  }

  /** What the scheduler's counters must say about vCPU k. */
  ghost predicate FairTo(trace: seq<Slice>, k: int, halted: bool, hcalls: int, budget: int, runs: int) {
    && hcalls == Hypercalls(trace, k) <= Cap(budget)
    && (!halted ==> Runs(trace, k) == runs && hcalls < Cap(budget) && !Crashed(trace, k))
    && (halted ==> hcalls == Cap(budget) || Crashed(trace, k))
  }

  lemma FairToStep(trace: seq<Slice>, i: int, e: Exit, k: int, halted: bool, hcalls: int, budget: int, runs: int)
    requires FairTo(trace, k, halted, hcalls, budget, runs)
    ensures k != i ==> FairTo(trace + [Slice(i, e)], k, halted, hcalls, budget, runs)
    ensures k == i && !halted ==>
      var h := if e == Hypercall then hcalls + 1 else hcalls;
      FairTo(trace + [Slice(i, e)], k, e == Unexpected || (e == Hypercall && h >= budget), h, budget, runs + 1)
  {
    RunsSnoc(trace, Slice(i, e), k);
  }

  /** One slice of vCPU i, and what the scheduler does with its exit, keeps the bookkeeping. */
  lemma FairStep(trace: seq<Slice>, halted: seq<bool>, hcalls: seq<int>, active: int, budget: int, rounds: int, i: int,
                 e: Exit, halted': seq<bool>, hcalls': seq<int>, active': int)
    requires 0 <= i < |halted| && !halted[i] && Fair(trace, halted, hcalls, active, budget, rounds, i)
    requires hcalls' == if e == Hypercall then hcalls[i := hcalls[i] + 1] else hcalls
    requires var stop := e == Unexpected || (e == Hypercall && hcalls'[i] >= budget);
             halted' == (if stop then halted[i := true] else halted) && active' == (if stop then active - 1 else active)
    ensures Fair(trace + [Slice(i, e)], halted', hcalls', active', budget, rounds, i + 1)
  {
    LiveHalts(halted, i, |halted|);
    forall k | 0 <= k < |halted|
      ensures FairTo(trace + [Slice(i, e)], k, halted'[k], hcalls'[k], budget, rounds + if k < i + 1 then 1 else 0)
    {
      assert FairTo(trace, k, halted[k], hcalls[k], budget, rounds + if k < i then 1 else 0);
      FairToStep(trace, i, e, k, halted[k], hcalls[k], budget, rounds + if k < i then 1 else 0);
    }
  }

  lemma FairSkip(trace: seq<Slice>, halted: seq<bool>, hcalls: seq<int>, active: int, budget: int, rounds: int, i: int)
    requires 0 <= i < |halted| && halted[i] && Fair(trace, halted, hcalls, active, budget, rounds, i)
    ensures Fair(trace, halted, hcalls, active, budget, rounds, i + 1)
  {
    forall k | 0 <= k < |halted|
      ensures FairTo(trace, k, halted[k], hcalls[k], budget, rounds + if k < i + 1 then 1 else 0)
    {
      assert FairTo(trace, k, halted[k], hcalls[k], budget, rounds + if k < i then 1 else 0);
    }
  }

  lemma SoundMeans(trace: seq<Slice>, exits: seq<Exit>, halted: array<bool>, hcalls: array<int>, active: int, budget: int, rounds: int, i: int)
    requires Sound(trace, exits, halted[..], hcalls[..], active, budget, rounds, i)
    ensures hcalls.Length == halted.Length && active == Live(halted[..], halted.Length)
    ensures forall k :: 0 <= k < halted.Length ==> hcalls[k] == Hypercalls(trace, k) <= Cap(budget)
    ensures forall k :: 0 <= k < halted.Length && !halted[k] ==> rounds <= Runs(trace, k) <= rounds + 1
    ensures forall k :: 0 <= k < halted.Length ==> (halted[k] <==> Done(trace, budget, k))
  {
    forall k | 0 <= k < halted.Length
      ensures hcalls[k] == Hypercalls(trace, k) <= Cap(budget)
      ensures !halted[k] ==> rounds <= Runs(trace, k) <= rounds + 1
      ensures halted[k] <==> Done(trace, budget, k)
    {
      assert FairTo(trace, k, halted[..][k], hcalls[..][k], budget, rounds + if k < i then 1 else 0);
    }
  }

  /** The vCPUs after the one that ran last, up to i, have all stopped. */
  ghost predicate Skipped(trace: seq<Slice>, halted: seq<bool>, i: int) {
    forall j :: 0 <= j < |halted| && Between(Last(trace), j, i) ==> halted[j]
  }

  lemma TurnOf(trace: seq<Slice>, halted: seq<bool>, hcalls: seq<int>, active: int, budget: int, rounds: int, i: int)
    requires 0 <= i < |halted| && !halted[i] && Skipped(trace, halted, i)
    requires Fair(trace, halted, hcalls, active, budget, rounds, i)
    ensures Turn(trace, |halted|, budget, i)
  {
    forall j | 0 <= j < |halted| ensures halted[j] <==> Done(trace, budget, j) {
      assert FairTo(trace, j, halted[j], hcalls[j], budget, rounds + if j < i then 1 else 0);
    }
  }

  lemma NextSkips(trace: seq<Slice>, halted: seq<bool>, i: int, e: Exit)
    requires 0 <= i < |halted|
    ensures halted[i] && Skipped(trace, halted, i) ==> Skipped(trace, halted, i + 1)
    ensures Skipped(trace + [Slice(i, e)], halted, i + 1)
  {
  }

  lemma RoundSkips(trace: seq<Slice>, halted: seq<bool>, n: nat)
    requires n == |halted| && Skipped(trace, halted, n) && Last(trace) < n
    ensures Skipped(trace, halted, 0)
  {
  }

  /** All that holds when the scheduler is about to look at vCPU i. */
  ghost predicate Sound(trace: seq<Slice>, exits: seq<Exit>, halted: seq<bool>, hcalls: seq<int>, active: int, budget: int,
                        rounds: int, i: int) {
    && Last(trace) < |halted| && Fair(trace, halted, hcalls, active, budget, rounds, i)
    && Consumed(trace, exits) && InTurn(trace, |halted|, budget) && Skipped(trace, halted, i)
  }

  lemma SoundSkip(trace: seq<Slice>, exits: seq<Exit>, halted: seq<bool>, hcalls: seq<int>, active: int, budget: int,
                  rounds: int, i: int)
    requires 0 <= i < |halted| && halted[i] && Sound(trace, exits, halted, hcalls, active, budget, rounds, i)
    ensures Sound(trace, exits, halted, hcalls, active, budget, rounds, i + 1)
  {
    FairSkip(trace, halted, hcalls, active, budget, rounds, i);
    NextSkips(trace, halted, i, Abort);
  }

  lemma SoundRound(trace: seq<Slice>, exits: seq<Exit>, halted: seq<bool>, hcalls: seq<int>, active: int, budget: int, rounds: int)
    requires Sound(trace, exits, halted, hcalls, active, budget, rounds, |halted|)
    ensures Sound(trace, exits, halted, hcalls, active, budget, rounds + 1, 0)
  {
    RoundSkips(trace, halted, |halted|);
    forall k | 0 <= k < |halted| ensures FairTo(trace, k, halted[k], hcalls[k], budget, rounds + 1) {
      assert FairTo(trace, k, halted[k], hcalls[k], budget, rounds + if k < |halted| then 1 else 0);
    }
  }

  /** The decision on one exit. */
  method Handle(i: int, e: Exit, budget: int, halted: array<bool>, hcalls: array<int>, active: int,
                ghost trace: seq<Slice>, ghost exits: seq<Exit>, ghost rounds: int) returns (active': int)
    requires 0 <= i < halted.Length && !halted[i] && |trace| < |exits| && e == exits[|trace|]
    requires Sound(trace, exits, halted[..], hcalls[..], active, budget, rounds, i)
    modifies halted, hcalls
    ensures Sound(trace + [Slice(i, e)], exits, halted[..], hcalls[..], active', budget, rounds, i + 1)
    ensures forall k :: 0 <= k < halted.Length && k != i ==> halted[k] == old(halted[k])
  {
    active' := active;
    match e {
      case Hypercall =>
        hcalls[i] := hcalls[i] + 1;
        if hcalls[i] >= budget {
          halted[i] := true;
          active' := active' - 1;
        }
      case Abort =>
      case Unexpected =>
        halted[i] := true;
        active' := active' - 1;
    }
    FairStep(trace, old(halted[..]), old(hcalls[..]), active, budget, rounds, i, e, halted[..], hcalls[..], active');
    TurnOf(trace, old(halted[..]), old(hcalls[..]), active, budget, rounds, i);
    InTurnSnoc(trace, halted.Length, budget, Slice(i, e));
    NextSkips(trace, halted[..], i, e);
  }

  /** The loop body for vCPU i. It is cut short only for lack of exits. */
  method Look(i: int, budget: int, exits: seq<Exit>, halted: array<bool>, hcalls: array<int>, active: int, pos: nat,
              ghost trace: seq<Slice>, ghost rounds: int)
    returns (cut: bool, active': int, pos': nat, ghost trace': seq<Slice>)
    requires 0 <= i < halted.Length && pos == |trace| && Sound(trace, exits, halted[..], hcalls[..], active, budget, rounds, i)
    modifies halted, hcalls
    ensures pos' == |trace'| && pos' >= pos && (!cut && !old(halted[i]) ==> pos' > pos)
    ensures Sound(trace', exits, halted[..], hcalls[..], active', budget, rounds, if cut then i else i + 1)
    ensures cut ==> pos' == |exits| && !halted[i]
    ensures forall k :: 0 <= k < halted.Length && k != i ==> halted[k] == old(halted[k])
  {
    cut, active', pos', trace' := false, active, pos, trace;
    if halted[i] {
      SoundSkip(trace, exits, halted[..], hcalls[..], active, budget, rounds, i);
    } else if pos == |exits| {
      cut := true;
    } else {
      var e := exits[pos];
      pos' := pos + 1;
      active' := Handle(i, e, budget, halted, hcalls, active, trace, exits, rounds);
      trace' := trace + [Slice(i, e)];
    }
  }

  /** One round of the for loop, or what there are exits for. */
  method Round(budget: int, exits: seq<Exit>, halted: array<bool>, hcalls: array<int>, active: int, pos: nat,
               ghost trace: seq<Slice>, ghost rounds: int)
    returns (cut: bool, active': int, pos': nat, ghost trace': seq<Slice>, ghost at: int)
    requires active != 0 && pos == |trace| && Sound(trace, exits, halted[..], hcalls[..], active, budget, rounds, 0)
    modifies halted, hcalls
    ensures pos' == |trace'| && Sound(trace', exits, halted[..], hcalls[..], active', budget, rounds, at)
    ensures if cut then pos' == |exits| && active' != 0 else at == halted.Length && pos' > pos
  {
    active', pos', trace' := active, pos, trace;
    ghost var someone := LiveSome(halted[..], halted.Length);
    for i := 0 to halted.Length
      invariant pos <= pos' == |trace'|
      invariant Sound(trace', exits, halted[..], hcalls[..], active', budget, rounds, i)
      invariant i <= someone ==> !halted[someone]
      invariant i > someone ==> pos' > pos
    {
      cut, active', pos', trace' := Look(i, budget, exits, halted, hcalls, active', pos', trace', rounds);
      if cut {
        LiveWitness(halted[..], halted.Length, i);
        at := i;
        return;
      }
    }
    cut, at := false, halted.Length;
  }

  /**
   * The scheduler run against any sequence of exits, up to the end of the loop or of
   * the sequence. The exits are handled in order; each slice goes to the vCPU whose
   * turn it is; a vCPU is halted exactly when it has used up its budget or crashed; the
   * live count is right, no vCPU is over budget, and two live vCPUs have run equally
   * often give or take one. The loop ends exactly when nobody is live, and otherwise
   * stops here for lack of exits only.
   */
  method RunVcpus(n: nat, budget: int, exits: seq<Exit>, halted: array<bool>)
    returns (finished: bool, active: int, hcalls: array<int>, ghost trace: seq<Slice>)
    requires halted.Length == n && forall i :: 0 <= i < n ==> !halted[i]
    modifies halted
    ensures Consumed(trace, exits) && InTurn(trace, n, budget) && (!finished ==> |trace| == |exits|)
    ensures hcalls.Length == n && active == Live(halted[..], n) && (finished <==> active == 0)
    ensures forall i :: 0 <= i < n ==> (halted[i] <==> Done(trace, budget, i))
    ensures forall i :: 0 <= i < n ==> hcalls[i] == Hypercalls(trace, i) <= Cap(budget)
    ensures forall i, j :: 0 <= i < n && 0 <= j < n && !halted[i] && !halted[j] ==> Runs(trace, i) <= Runs(trace, j) + 1
  {
    hcalls := new int[n](i => 0);
    active := n;
    trace := [];
    LiveAll(halted[..], n);
    var pos := 0;
    ghost var rounds, at := 0, 0;
    finished := true;
    while active != 0 && finished
      invariant pos == |trace| && halted.Length == n && hcalls.Length == n && fresh(hcalls)
      invariant Sound(trace, exits, halted[..], hcalls[..], active, budget, rounds, at)
      invariant if finished then at == 0 else pos == |exits| && active != 0
      decreases finished, |exits| - pos
    {
      var cut;
      cut, active, pos, trace, at := Round(budget, exits, halted, hcalls, active, pos, trace, rounds);
      if cut {
        finished := false;
      } else {
        SoundRound(trace, exits, halted[..], hcalls[..], active, budget, rounds);
        rounds, at := rounds + 1, 0;
      }
    }
    SoundMeans(trace, exits, halted, hcalls, active, budget, rounds, at);
  }
}
