/** The packets exchanged between the core and the memory hierarchy, and what
    a memory does when it services one. */
module Packets {
  import opened Words
  import opened Isa

  datatype Option<+T> = None | Some(value: T)

  datatype PacketType = FetchPacket | LoadPacket | StorePacket | PrefetchPacket | WriteBackPacket

  datatype Packet = Packet(isWrite: bool, ptype: PacketType, addr: Word, size: nat, data: seq<Byte>)

  /** The `n` bytes of `mem` from `a` on. */
  function ReadBytes(mem: Mem, a: int, n: nat): (d: seq<Byte>)
    ensures |d| == n
    ensures forall i :: 0 <= i < n ==> d[i] == Get(mem, a + i)
  {
    seq<Byte>(n, i requires 0 <= i < n => Get(mem, a + i))
  }

  function WriteBytes(mem: Mem, a: int, d: seq<Byte>): Mem
    decreases |d|
  {
    if d == [] then mem
    else
      var n := |d| - 1;
      WriteBytes(mem, a, d[..n])[a + n := d[n]]
  }

  lemma {:induction false} GetAfterWrite(mem: Mem, a: int, d: seq<Byte>, x: int)
    ensures Get(WriteBytes(mem, a, d), x) == if a <= x < a + |d| then d[x - a] else Get(mem, x)
    decreases |d|
  {
    if d != [] {
      GetAfterWrite(mem, a, d[..|d| - 1], x);
    }
  }

  /** The little-endian word held in four bytes. */
  function WordOf(d: seq<Byte>): Word
    requires |d| == 4
  {
    d[0] as int + 0x100 * d[1] as int + 0x1_0000 * d[2] as int + 0x100_0000 * d[3] as int
  }

  /** A packet after it was serviced by a flat memory: a read is filled in. */
  function Served(mem: Mem, p: Packet): Packet {
    if p.isWrite then p else p.(data := ReadBytes(mem, p.addr, p.size))
  }

  /** The flat memory after it serviced a packet. */
  function After(mem: Mem, p: Packet): Mem {
    if p.isWrite then WriteBytes(mem, p.addr, p.data) else mem
  }
}
