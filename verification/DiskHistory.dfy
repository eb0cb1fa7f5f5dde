/** A disk is the history of the successful writes made to it, and reads return the latest of them. */
module DiskHistory {
  import opened Words
  import opened HostMemory
  import opened Virtqueue
  import opened BlockSpec
  import opened DeviceLocality
  import T = Tenants

  /** A successful write: where, and what. */
  datatype Write = Write(off: nat, data: seq<u8>)

  predicate OnDisk(w: Write) { w.off + |w.data| <= DISK_SIZE }

  type Log = l: seq<Write> | forall w :: w in l ==> OnDisk(w)

  function Replay(d: Disk, log: Log): Disk {
    if log == [] then d
    else
      assert OnDisk(log[|log| - 1]);
      Splice(Replay(d, log[..|log| - 1]), log[|log| - 1].off, log[|log| - 1].data)
  }

  /** The byte the most recent write covering k left there, or the one the disk was seeded with. */
  function Latest(seed: Disk, log: Log, k: int): u8
    requires 0 <= k < DISK_SIZE
  {
    if log == [] then seed[k]
    else
      var w := log[|log| - 1];
      if w.off <= k < w.off + |w.data| then w.data[k - w.off] else Latest(seed, log[..|log| - 1], k)
  }

  lemma {:induction false} ReplayIsLatest(seed: Disk, log: Log, k: int)
    requires 0 <= k < DISK_SIZE
    ensures Replay(seed, log)[k] == Latest(seed, log, k)
    decreases |log|
  {
    if log != [] {
      assert OnDisk(log[|log| - 1]);
      ReplayIsLatest(seed, log[..|log| - 1], k);
    }
  }

  lemma {:induction false} ReplayConcat(d: Disk, l: Log, l': Log)
    ensures (forall w :: w in l + l' ==> OnDisk(w)) && Replay(d, l + l') == Replay(Replay(d, l), l')
    decreases |l'|
  {
    if l' == [] {
      assert l + l' == l;
    } else {
      ReplayConcat(d, l, l'[..|l'| - 1]);
      assert (l + l')[..|l + l'| - 1] == l + l'[..|l'| - 1];
    }
  }

  /** The write a request performs, if it is an accepted write. */
  function Performed(r: Request, m: Mem): Log
    requires !Stray(r)
  {
    if Accepted(r) && r.kind == 1 then [Write(Offset(r), Bytes(m, r.daddr, r.dlen))] else []
  }

  function BatchLog(b: Blk, q: Queue, m: Mem, to: u16): Log
    requires 0 < q.num && BatchSafe(b, q, m, to)
    decreases Dist(b.lastAvail, to)
  {
    if b.lastAvail == to then []
    else
      var o := ServeOne(b, q, m);
      Performed(Decode(m, q, b.hostOff, b.lastAvail), m) + BatchLog(o.b, q, o.m, to)
  }

  lemma ServeReplays(b: Blk, q: Queue, m: Mem, r: Request)
    requires 0 < q.num && r == Decode(m, q, b.hostOff, b.lastAvail) && !Stray(r)
    ensures ServeOne(b, q, m).b.disk == Replay(b.disk, Performed(r, m))
  {
    if Accepted(r) && r.kind == 1 {
      assert Performed(r, m)[..0] == [];
    }
  }

  /** Every batch changes the disk by replaying the writes it performed, and by nothing else. */
  lemma {:induction false} BatchReplays(b: Blk, q: Queue, m: Mem, to: u16)
    requires 0 < q.num && BatchSafe(b, q, m, to)
    ensures Batch(b, q, m, to).b.disk == Replay(b.disk, BatchLog(b, q, m, to))
    decreases Dist(b.lastAvail, to)
  {
    if b.lastAvail != to {
      var r, o := Decode(m, q, b.hostOff, b.lastAvail), ServeOne(b, q, m);
      ServeReplays(b, q, m, r);
      DistNext(b.lastAvail, to);
      BatchReplays(o.b, q, o.m, to);
      ReplayConcat(b.disk, Performed(r, m), BatchLog(o.b, q, o.m, to));
    }
  }

  /** An accepted read copies, byte for byte, the latest write to each position of its range. */
  lemma ReadCopiesLatest(seed: Disk, log: Log, d: Disk, m: Mem, r: Request, i: int)
    requires Accepted(r) && !Stray(r) && r.kind != 1 && 0 <= i < r.dlen
    requires d == Replay(seed, log) && Wrap(r.daddr + i) != r.saddr
    ensures Transfer(d, m, r).1[Wrap(r.daddr + i)] == Latest(seed, log, Offset(r) + i)
  {
    var bs := d[Offset(r)..Offset(r) + r.dlen];
    FillByte(m, r.daddr, bs, i);
    ReplayIsLatest(seed, log, Offset(r) + i);
  }

  // ---- the same over runs of two tenants ----

  function NotifyLog(b: Blk, m: Mem): Log
    requires NotifySafe(b, m)
  {
    if Ready(b) then BatchLog(b, QueueOf(b), m, AvailIdx(m, QueueOf(b))) else []
  }

  lemma PerformedLocal(b: Blk, q: Queue, m: Mem, m': Mem, r: Request, lo: int)
    requires BlockPlace(lo) && Alike(m, m', lo) && 0 < q.num && RequestInside(b, q, m, lo)
    requires r == Decode(m, q, b.hostOff, b.lastAvail)
    ensures Decode(m', q, b.hostOff, b.lastAvail) == r && Performed(r, m) == Performed(r, m')
  {
    HeadLocal(m, m', q, b.lastAvail, lo);
    FollowLocal(m, m', q, b.hostOff, r.head, r, lo);
    if Accepted(r) {
      BytesLocal(m, m', r.daddr, r.dlen, lo);
    }
  }

  lemma {:induction false} BatchLogLocal(b: Blk, q: Queue, m: Mem, m': Mem, to: u16, lo: int)
    requires BlockPlace(lo) && Alike(m, m', lo) && 0 < q.num && BatchInside(b, q, m, to, lo)
    requires BatchSafe(b, q, m, to) && BatchSafe(b, q, m', to)
    ensures BatchLog(b, q, m, to) == BatchLog(b, q, m', to)
    decreases Dist(b.lastAvail, to)
  {
    if b.lastAvail != to {
      var r := Decode(m, q, b.hostOff, b.lastAvail);
      ServeOneLocal(b, q, m, m', lo);
      PerformedLocal(b, q, m, m', r, lo);
      DistNext(b.lastAvail, to);
      BatchLogLocal(ServeOne(b, q, m).b, q, ServeOne(b, q, m).m, ServeOne(b, q, m').m, to, lo);
    }
  }

  /** The successful writes VM v makes by event e. */
  function EventLog(s: T.System, e: T.Event, v: int): Log
    requires T.Defined(s, e)
  {
    if e.vm == v && e.act.BlockKick? then NotifyLog(s.vms[v].blk, s.m) else []
  }

  /** The successful writes VM v makes in a run. */
  function RunLog(p: T.Placement, s: T.System, es: seq<T.Event>, v: int): Log
    requires p.Valid() && T.RunDefined(p, s, es)
    decreases es
  {
    if es == [] then []
    else
      EventLog(s, es[0], v) + RunLog(p, T.Step(p, s, es[0]), es[1..], v)
  }

  lemma NotifyReplays(b: Blk, m: Mem)
    requires NotifySafe(b, m)
    ensures Notify(b, m).b.disk == Replay(b.disk, NotifyLog(b, m))
  {
    if Ready(b) {
      BatchReplays(b, QueueOf(b), m, AvailIdx(m, QueueOf(b)));
    }
  }

  /** What one action does to the actor's own disk. */
  lemma ActReplays(m: Mem, vm: T.Vm, tb: u64, a: T.Action)
    requires a.BlockKick? ==> NotifySafe(vm.blk, m)
    ensures T.Act(m, vm, tb, a).1.blk.disk == if a.BlockKick? then Replay(vm.blk.disk, NotifyLog(vm.blk, m)) else vm.blk.disk
  {
    if a.BlockKick? {
      NotifyReplays(vm.blk, m);
    }
  }

  lemma StepReplays(p: T.Placement, s: T.System, e: T.Event, v: int)
    requires p.Valid() && T.Defined(s, e) && 0 <= v < 2
    ensures T.Step(p, s, e).vms[v].blk.disk == Replay(s.vms[v].blk.disk, EventLog(s, e, v))
  {
    ActReplays(s.m, s.vms[e.vm], p.tb[e.vm], e.act);
  }

  /**
   * After any interleaving a disk that is kept apart from memory is its seed with its
   * owner's successful writes replayed. HostDisks has the disks where they really are.
   */
  lemma {:induction false} DisksReplay(p: T.Placement, s: T.System, es: seq<T.Event>, v: int)
    requires p.Valid() && |s.vms| == 2 && T.RunDefined(p, s, es) && 0 <= v < 2
    ensures T.Run(p, s, es).vms[v].blk.disk == Replay(s.vms[v].blk.disk, RunLog(p, s, es, v))
    decreases es
  {
    if es != [] {
      StepReplays(p, s, es[0], v);
      var s' := T.Step(p, s, es[0]);
      DisksReplay(p, s', es[1..], v);
      ReplayConcat(s.vms[v].blk.disk, EventLog(s, es[0], v), RunLog(p, s', es[1..], v));
    }
  }

  lemma EventLogLocal(p: T.Placement, s: T.System, t: T.System, e: T.Event)
    requires T.Inv(p, s) && T.Inv(p, t) && T.Allowed(p, s, e) && T.SameView(p, s, t, e.vm)
    ensures T.Allowed(p, t, e) && EventLog(s, e, e.vm) == EventLog(t, e, e.vm)
  {
    T.ActLocal(p, s, t, e);
    if e.act.BlockKick? {
      NotifyLogLocal(s.vms[e.vm].blk, s.m, t.m, p.pa[e.vm]);
    }
  }

  lemma NotifyLogLocal(b: Blk, m: Mem, m': Mem, lo: int)
    requires BlockPlace(lo) && Alike(m, m', lo) && BlockInside(b, m, lo)
    ensures NotifySafe(b, m) && NotifySafe(b, m') && NotifyLog(b, m) == NotifyLog(b, m')
  {
    BlockLocal(b, m, m', lo);
    if Ready(b) {
      KickLogLocal(b, QueueOf(b), m, m', lo);
    }
  }

  lemma KickLogLocal(b: Blk, q: Queue, m: Mem, m': Mem, lo: int)
    requires BlockPlace(lo) && Alike(m, m', lo) && 0 < q.num
    requires Inside(lo, q.Avail() + 2, 2) && BatchInside(b, q, m, AvailIdx(m, q), lo)
    ensures BatchSafe(b, q, m, AvailIdx(m, q)) && BatchSafe(b, q, m', AvailIdx(m', q))
    ensures BatchLog(b, q, m, AvailIdx(m, q)) == BatchLog(b, q, m', AvailIdx(m', q))
  {
    LoadLocal(m, m', q.Avail() + 2, 2, lo);
    BatchLocal(b, q, m, m', AvailIdx(m, q), lo);
    BatchLogLocal(b, q, m, m', AvailIdx(m, q), lo);
  }

  /** And that history is the one the tenant would have made running alone. */
  lemma HistoryAlone(p: T.Placement, s: T.System, t: T.System, es: seq<T.Event>, v: int)
    requires T.Inv(p, s) && T.Inv(p, t) && T.RunAllowed(p, s, es) && 0 <= v < 2 && T.SameView(p, s, t, v)
    ensures T.RunAllowed(p, t, T.Own(es, v)) && RunLog(p, s, es, v) == RunLog(p, t, T.Own(es, v), v)
  {
    T.RunsAlone(p, s, t, es, v);
    LogsAgree(p, s, t, es, v);
  }

  lemma {:induction false} LogsAgree(p: T.Placement, s: T.System, t: T.System, es: seq<T.Event>, v: int)
    requires T.Inv(p, s) && T.Inv(p, t) && T.RunAllowed(p, s, es) && 0 <= v < 2 && T.SameView(p, s, t, v)
    requires T.RunAllowed(p, t, T.Own(es, v))
    ensures RunLog(p, s, es, v) == RunLog(p, t, T.Own(es, v), v)
    decreases es
  {
    if es != [] {
      var e := es[0];
      T.InvKept(p, s, e);
      if e.vm == v {
        assert T.Own(es, v)[1..] == T.Own(es[1..], v);
        EventLogLocal(p, s, t, e);
        T.ActLocal(p, s, t, e);
        T.InvKept(p, t, e);
        LogsAgree(p, T.Step(p, s, e), T.Step(p, t, e), es[1..], v);
      } else {
        assert T.Own(es, v) == T.Own(es[1..], v);
        T.OtherUnchanged(p, s, e, v);
        LogsAgree(p, T.Step(p, s, e), t, es[1..], v);
      }
    }
  }
}
