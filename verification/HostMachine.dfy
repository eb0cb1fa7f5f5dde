/** The state every device model shares: host memory and the real console. */
module HostMachine {
  import opened Words
  import opened HostMemory
  import opened Virtqueue

  /** Host physical memory and the real console. */
  class Host {
    var mem: Mem
    var out: seq<u8>

    constructor (mem: Mem)
      ensures this.mem == mem && out == []
    {
      this.mem, out := mem, [];
    }

    /** The tail both request loops share: the used element, then the used index. */
    method PublishUsed(q: Queue, head: u16, len: u32)
      requires 0 < q.num
      modifies this`mem
      ensures mem == Publish(old(mem), q, head, len)
    {
      var uidx := Rd16(mem, q.Used() + 2);
      var slot := (uidx as int) % q.num;
      var ue := q.Used() + 4 + 8 * slot;
      mem := Wr32(mem, ue, head);
      mem := Wr32(mem, ue + 4, len);
      mem := Wr16(mem, q.Used() + 2, Next16(uidx));
      assert mem == PublishAt(old(mem), q, uidx, slot, head, len);
    }
  }
}
