/** What holds of the cache and its memory between any two steps, with any
    number of requests outstanding. */
module CacheInvariant {
  import opened Words
  import opened Isa
  import opened Packets
  import opened Geometry
  import opened CacheSpec

  predicate IsBase(c: Config, a: Word) {
    Base(c, a) == a
  }

  /** Address of the block with `tag` in set `i`. */
  function AddrOf(c: Config, tag: nat, i: nat): Word {
    GetAddress(c, Location(tag, i, 0))
  }

  /** Main memory after every queued write-back. */
  function Drained(store: Mem, queue: seq<Req>): Mem {
    if queue == [] then store
    else After(Drained(store, queue[..|queue| - 1]), queue[|queue| - 1].pkt)
  }

  predicate Resident(c: Config, h: Hier, b: Word)
    requires Shaped(c, h)
  {
    FindWay(h.blocks[GetLocation(c, b).index], GetLocation(c, b).tag) < c.assoc
  }

  /** The contents of block `b`: those of the resident block, else what memory
      will hold once the queued write-backs are done. */
  function BlockData(c: Config, h: Hier, b: Word): (d: seq<Byte>)
    requires Shaped(c, h)
    ensures |d| == c.blkSize
  {
    var l := GetLocation(c, b);
    var w := FindWay(h.blocks[l.index], l.tag);
    if w < c.assoc then h.blocks[l.index][w].data else ReadBytes(Drained(h.store, h.queue), b, c.blkSize)
  }

  /** The cache with its memory is the flat memory `flat`. */
  ghost predicate Coherent(c: Config, h: Hier, flat: Mem)
    requires Shaped(c, h)
  {
    forall b: Word :: IsBase(c, b) ==> BlockData(c, h, b) == ReadBytes(flat, b, c.blkSize)
  }

  predicate UniqueTags(ways: seq<Block>) {
    forall v, w :: 0 <= v < w < |ways| && ways[v].valid && ways[w].valid ==> ways[v].tag != ways[w].tag
  }

  predicate RegionOk(c: Config, b: Word) {
    Mapped(b, c.blkSize)
  }

  predicate TagOk(c: Config, tag: nat, i: nat) {
    InRange(c, Location(tag, i, 0)) && RegionOk(c, AddrOf(c, tag, i))
  }

  predicate BlocksOk(c: Config, h: Hier) {
    && Shaped(c, h)
    && (forall i :: 0 <= i < c.numSets ==> UniqueTags(h.blocks[i]))
    && (forall i, w :: 0 <= i < c.numSets && 0 <= w < c.assoc && h.blocks[i][w].valid ==>
       TagOk(c, h.blocks[i][w].tag, i))
  }

  /** A clean block is the same as memory with the write-backs done. */
  predicate CleanOk(c: Config, h: Hier)
    requires Shaped(c, h)
  {
    forall i, w :: 0 <= i < c.numSets && 0 <= w < c.assoc && h.blocks[i][w].valid && !h.blocks[i][w].dirty ==>
      h.blocks[i][w].data == ReadBytes(Drained(h.store, h.queue), AddrOf(c, h.blocks[i][w].tag, i), c.blkSize)
  }

  /** A packet that a client may send: inside one block of one region. */
  predicate PacketOk(c: Config, p: Packet) {
    Fits(c, p) && RegionOk(c, Base(c, p.addr))
  }

  predicate PendingOk(c: Config, q: seq<Req>) {
    forall i :: 0 <= i < |q| ==> PacketOk(c, q[i].pkt)
  }

  predicate HasEntry(mshr: seq<Entry>, a: Word) {
    exists i :: 0 <= i < |mshr| && HoldsMiss(mshr[i], a)
  }

  predicate IsRead(q: Req, a: Word) {
    !q.pkt.isWrite && q.pkt.addr == a
  }

  predicate HasRead(queue: seq<Req>, a: Word) {
    exists i :: 0 <= i < |queue| && IsRead(queue[i], a)
  }

  /** Whole blocks only; a read belongs to an entry. */
  predicate QueueItemOk(c: Config, mshr: seq<Entry>, q: Req) {
    && IsBase(c, q.pkt.addr) && q.pkt.size == |q.pkt.data| == c.blkSize && RegionOk(c, q.pkt.addr)
    && (q.pkt.isWrite ==> q.pkt.ptype == WriteBackPacket)
    && (!q.pkt.isWrite ==> HasEntry(mshr, q.pkt.addr))
  }

  /** Nothing for the block of a queued read is behind it. */
  predicate QueueOrder(queue: seq<Req>) {
    forall i, j :: 0 <= i < j < |queue| && !queue[i].pkt.isWrite ==> queue[i].pkt.addr != queue[j].pkt.addr
  }

  predicate QueueOk(c: Config, mshr: seq<Entry>, queue: seq<Req>) {
    QueueOrder(queue) && forall i :: 0 <= i < |queue| ==> QueueItemOk(c, mshr, queue[i])
  }

  predicate SubOk(c: Config, address: Word, s: SubEntry) {
    s.valid ==> s.req.Some? && PacketOk(c, s.req.value.pkt) && Base(c, s.req.value.pkt.addr) == address
  }

  predicate NoneValid(subs: seq<SubEntry>) {
    forall j :: 0 <= j < |subs| ==> !subs[j].valid
  }

  /** A valid entry has been issued, its block is not resident and has exactly
      one read in flight, and its sub-entries hold packets of that block. */
  predicate EntryOk(c: Config, h: Hier, e: Entry)
    requires Shaped(c, h)
  {
    if e.valid then
      && e.issued && IsBase(c, e.address) && !Resident(c, h, e.address) && HasRead(h.queue, e.address)
      && (forall j :: 0 <= j < |e.subs| ==> SubOk(c, e.address, e.subs[j]))
    else !e.issued && NoneValid(e.subs)
  }

  predicate DistinctEntries(mshr: seq<Entry>) {
    forall i, j :: 0 <= i < j < |mshr| && mshr[i].valid && mshr[j].valid ==> mshr[i].address != mshr[j].address
  }

  predicate MshrOk(c: Config, h: Hier)
    requires Shaped(c, h)
  {
    DistinctEntries(h.mshr) && forall i :: 0 <= i < |h.mshr| ==> EntryOk(c, h, h.mshr[i])
  }

  /** The flat memory after the serviced packets. */
  function Replay(init: Mem, trace: seq<Req>): Mem {
    if trace == [] then init else After(Replay(init, trace[..|trace| - 1]), trace[|trace| - 1].pkt)
  }

  /** Every serviced read returned what the flat memory held at its turn. */
  predicate Legal(init: Mem, trace: seq<Req>) {
    forall k :: 0 <= k < |trace| && !trace[k].pkt.isWrite ==>
      trace[k].pkt.data == ReadBytes(Replay(init, trace[..k]), trace[k].pkt.addr, trace[k].pkt.size)
  }

  /** A serviced packet: a write as it came, a read with its data filled in. */
  predicate ServedAs(q: Req, r: Req) {
    r == q.(pkt := r.pkt) && if q.pkt.isWrite then r.pkt == q.pkt else r.pkt == q.pkt.(data := r.pkt.data)
  }

  /** The history `t` is `trace` and then the packets `reqs`, serviced in order. */
  predicate ServesNext(trace: seq<Req>, reqs: seq<Req>, t: seq<Req>) {
    && |t| == |trace| + |reqs| && t[..|trace|] == trace
    && forall k :: 0 <= k < |reqs| ==> ServedAs(reqs[k], t[|trace| + k])
  }

  function Ids(q: seq<Req>): multiset<nat> {
    if q == [] then multiset{} else Ids(q[..|q| - 1]) + multiset{q[|q| - 1].id}
  }

  /** The packets that wait in the miss registers. */
  function MissIds(mshr: seq<Entry>): multiset<nat> {
    if mshr == [] then multiset{} else MissIds(mshr[..|mshr| - 1]) + Ids(Waiting(mshr[|mshr| - 1].subs))
  }

  function FirstIds(n: nat): multiset<nat> {
    if n == 0 then multiset{} else FirstIds(n - 1) + multiset{n - 1}
  }

  /** Every accepted packet is pending, or waits in one sub-entry, or has been
      serviced, and only once. */
  predicate Conserved(h: Hier) {
    Ids(h.pending) + MissIds(h.mshr) + Ids(h.trace) == FirstIds(h.accepted)
  }

  ghost predicate CacheOk(c: Config, h: Hier, init: Mem) {
    && ValidConfig(c) && Shaped(c, h)
    && BlocksOk(c, h) && CleanOk(c, h)
    && PendingOk(c, h.pending) && QueueOk(c, h.mshr, h.queue) && MshrOk(c, h)
    && Coherent(c, h, Replay(init, h.trace)) && Legal(init, h.trace)
  }
}
