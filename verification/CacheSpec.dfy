/** The L1 data cache over main memory as a transition function on values:
    a write-back cache with miss registers, whose next level is a delayed
    first-in first-out memory. A packet accepted by the cache gets a number
    that stands for its identity. */
module CacheSpec {
  import opened Words
  import opened Isa
  import opened Packets
  import opened Geometry

  datatype Block = Block(valid: bool, dirty: bool, tag: nat, data: seq<Byte>)

  datatype Req = Req(id: nat, pkt: Packet, ready: nat)

  datatype SubEntry = SubEntry(valid: bool, req: Option<Req>)

  datatype Entry = Entry(valid: bool, address: Word, issued: bool, subs: seq<SubEntry>)

  /** `trace` lists the packets serviced so far, reads with their data. */
  datatype Hier = Hier(
    blocks: seq<seq<Block>>, pending: seq<Req>, mshr: seq<Entry>,
    store: Mem, queue: seq<Req>,
    now: nat, accepted: nat, trace: seq<Req>, crashed: bool)

  const CAPACITY := 100

  predicate Shaped(c: Config, h: Hier) {
    && |h.blocks| == c.numSets
    && (forall i :: 0 <= i < |h.blocks| ==> |h.blocks[i]| == c.assoc)
    && (forall i, w :: 0 <= i < |h.blocks| && 0 <= w < |h.blocks[i]| ==> |h.blocks[i][w].data| == c.blkSize)
    && |h.mshr| == c.entries
    && (forall e :: 0 <= e < |h.mshr| ==> |h.mshr[e].subs| == c.subentries)
  }

  // ------------------------------------------------------------------ regions

  datatype Region = Region(start: Word, size: Word)

  const REGIONS: seq<Region> := [
    Region(0x0040_0000, 0x0010_0000),
    Region(0x1000_0000, 0x0010_0000),
    Region(0x7FF0_0000, 0x0010_0000),
    Region(0x9000_0000, 0x0010_0000),
    Region(0x8000_0000, 0x0010_0000)]

  /** The test of `getMemRegion`: the end of the access is computed in 32 bits
      and must lie strictly before the end of the region. */
  predicate Holds(r: Region, addr: Word, size: nat) {
    addr >= r.start && Wrap(addr + size) < Wrap(r.start + r.size)
  }

  /** Index of the first region that holds the access, or 5. */
  function RegionIndex(addr: Word, size: nat): nat {
    if Holds(REGIONS[0], addr, size) then 0
    else if Holds(REGIONS[1], addr, size) then 1
    else if Holds(REGIONS[2], addr, size) then 2
    else if Holds(REGIONS[3], addr, size) then 3
    else if Holds(REGIONS[4], addr, size) then 4
    else 5
  }

  /** A region is found and the access lies in it: its end did not wrap. */
  predicate Mapped(addr: Word, size: nat) {
    RegionIndex(addr, size) != 5 && addr + size < 0x1_0000_0000
  }

  // -------------------------------------------------------------- main memory

  /** `BaseMemory::recvReq`: an access that no region is found for is fatal; a
      full queue refuses. */
  function MemRecv(c: Config, h: Hier, req: Req): (Hier, bool) {
    if RegionIndex(req.pkt.addr, req.pkt.size) == 5 then (h.(crashed := true), false)
    else if |h.queue| < CAPACITY then (h.(queue := h.queue + [req.(ready := req.ready + c.memDelay)]), true)
    else (h, false)
  }

  // ------------------------------------------------------------------- search

  predicate HoldsTag(b: Block, tag: nat) {
    b.valid && b.tag == tag
  }

  /** First valid way with `tag`, or the number of ways. */
  function FindWay(ways: seq<Block>, tag: nat): (w: nat)
    ensures w <= |ways|
    ensures w < |ways| ==> HoldsTag(ways[w], tag)
    ensures forall v :: 0 <= v < w ==> !HoldsTag(ways[v], tag)
  {
    if ways == [] then 0
    else if HoldsTag(ways[0], tag) then 0
    else
      var w := FindWay(ways[1..], tag);
      assert forall v :: 0 < v < 1 + w ==> ways[v] == ways[1..][v - 1];
      1 + w
  }

  /** First way that holds nothing, or the number of ways. */
  function FindInvalid(ways: seq<Block>): (w: nat)
    ensures w <= |ways|
    ensures w < |ways| ==> !ways[w].valid
    ensures forall v :: 0 <= v < w ==> ways[v].valid
  {
    if ways == [] then 0
    else if !ways[0].valid then 0
    else
      var w := FindInvalid(ways[1..]);
      assert forall v :: 0 < v < 1 + w ==> ways[v] == ways[1..][v - 1];
      1 + w
  }

  predicate HoldsMiss(e: Entry, address: Word) {
    e.valid && e.address == address
  }

  /** First valid entry for the block `address`, or the number of entries. */
  function FindEntry(mshr: seq<Entry>, address: Word): (i: nat)
    ensures i <= |mshr|
    ensures i < |mshr| ==> HoldsMiss(mshr[i], address)
    ensures forall j :: 0 <= j < i ==> !HoldsMiss(mshr[j], address)
  {
    if mshr == [] then 0
    else if HoldsMiss(mshr[0], address) then 0
    else
      var i := FindEntry(mshr[1..], address);
      assert forall j :: 0 < j < 1 + i ==> mshr[j] == mshr[1..][j - 1];
      1 + i
  }

  function FindFreeEntry(mshr: seq<Entry>): (i: nat)
    ensures i <= |mshr|
    ensures i < |mshr| ==> !mshr[i].valid
    ensures forall j :: 0 <= j < i ==> mshr[j].valid
  {
    if mshr == [] then 0
    else if !mshr[0].valid then 0
    else
      var i := FindFreeEntry(mshr[1..]);
      assert forall j :: 0 < j < 1 + i ==> mshr[j] == mshr[1..][j - 1];
      1 + i
  }

  function FindFreeSub(subs: seq<SubEntry>): (i: nat)
    ensures i <= |subs|
    ensures i < |subs| ==> !subs[i].valid
    ensures forall j :: 0 <= j < i ==> subs[j].valid
  {
    if subs == [] then 0
    else if !subs[0].valid then 0
    else
      var i := FindFreeSub(subs[1..]);
      assert forall j :: 0 < j < 1 + i ==> subs[j] == subs[1..][j - 1];
      1 + i
  }

  /** The victim of a fill: the first way that holds nothing if there is one, else
      the one drawn. */
  function VictimWay(ways: seq<Block>, choice: nat): (w: nat)
    requires |ways| > 0
    ensures w < |ways|
    ensures ways[w].valid ==> forall v :: 0 <= v < |ways| ==> ways[v].valid
    ensures !ways[w].valid ==> forall v :: 0 <= v < w ==> ways[v].valid
    ensures ways[w].valid && choice < |ways| ==> w == choice
  {
    var w := FindInvalid(ways);
    if w < |ways| then w else choice % |ways|
  }

  // ------------------------------------------------------------------ service

  /** The packet stays inside one block. */
  predicate Fits(c: Config, p: Packet) {
    |p.data| == p.size && GetLocation(c, p.addr).offset + p.size <= c.blkSize
  }

  function Splice(data: seq<Byte>, off: nat, d: seq<Byte>): (r: seq<Byte>)
    requires off + |d| <= |data|
    ensures |r| == |data|
  {
    data[..off] + d + data[off + |d|..]
  }

  /** `applyPacketToCacheBlock`: the block and the packet afterwards. */
  function Apply(c: Config, b: Block, p: Packet): (Block, Packet)
    requires Fits(c, p) && |b.data| == c.blkSize
  {
    var off := GetLocation(c, p.addr).offset;
    if p.isWrite then (b.(data := Splice(b.data, off, p.data), dirty := true), p)
    else (b, p.(data := b.data[off..off + p.size]))
  }

  function SetBlock(c: Config, h: Hier, i: nat, w: nat, b: Block): (r: Hier)
    requires Shaped(c, h) && i < c.numSets && w < c.assoc && |b.data| == c.blkSize
    ensures Shaped(c, r)
  {
    h.(blocks := h.blocks[i := h.blocks[i][w := b]])
  }

  /** Services a packet on the block at set `i`, way `w`. */
  function ServeOn(c: Config, h: Hier, i: nat, w: nat, req: Req): (r: Hier)
    requires Shaped(c, h) && i < c.numSets && w < c.assoc
    ensures Shaped(c, r)
  {
    if !Fits(c, req.pkt) then h.(crashed := true)
    else
      var (b, p) := Apply(c, h.blocks[i][w], req.pkt);
      SetBlock(c, h, i, w, b).(trace := h.trace + [req.(pkt := p)])
  }

  // ------------------------------------------------------------------- misses

  /** `repeatPacket`, turned into a read: a request for the whole block. */
  function BlockRead(c: Config, req: Req): Req {
    Req(req.id,
        Packet(false, if req.pkt.isWrite then LoadPacket else req.pkt.ptype, Base(c, req.pkt.addr), c.blkSize,
               seq<Byte>(c.blkSize, _ => 0)),
        req.ready)
  }

  function BlockAddress(c: Config, addr: Word): Word {
    GetAddress(c, GetLocation(c, addr).(offset := 0))
  }

  function SetEntry(c: Config, h: Hier, i: nat, e: Entry): (r: Hier)
    requires Shaped(c, h) && i < c.entries && |e.subs| == c.subentries
    ensures Shaped(c, r)
  {
    h.(mshr := h.mshr[i := e])
  }

  /** `processCacheMiss`: true when the packet now waits in the miss registers. */
  function ProcessMiss(c: Config, h: Hier, req: Req): (r: (Hier, bool))
    requires Shaped(c, h)
    ensures Shaped(c, r.0)
  {
    var address := BlockAddress(c, req.pkt.addr);
    var found := FindEntry(h.mshr, address);
    var i := if found < |h.mshr| then found else FindFreeEntry(h.mshr);
    if i == |h.mshr| then (h, false)
    else
      var e := h.mshr[i].(address := address);
      var j := FindFreeSub(e.subs);
      if j == |e.subs| then (SetEntry(c, h, i, e), false)
      else
        var waiting := e.(subs := e.subs[j := SubEntry(false, Some(req))]);
        var taken := e.(subs := e.subs[j := SubEntry(true, Some(req))], valid := true, issued := true);
        if e.issued then (SetEntry(c, h, i, taken), true)
        else
          var (h1, ok) := MemRecv(c, h, BlockRead(c, req));
          if ok then (SetEntry(c, h1, i, taken), true) else (SetEntry(c, h1, i, waiting), false)
  }

  /** One ready packet of `Tick`: serviced or moved to the miss registers, or
      kept with a new ready time. */
  function ProcessReady(c: Config, h: Hier, req: Req): (r: (Hier, Option<Req>))
    requires Shaped(c, h)
    ensures Shaped(c, r.0)
  {
    var l := GetLocation(c, req.pkt.addr);
    var w := FindWay(h.blocks[l.index], l.tag);
    if w == c.assoc then
      var (h1, ok) := ProcessMiss(c, h, req);
      (h1, if ok then None else Some(req.(ready := h.now + 1)))
    else (ServeOn(c, h, l.index, w, req), None)
  }

  /** Processes the packets of `todo` in order; the second result is what stays. */
  function ProcessAll(c: Config, h: Hier, todo: seq<Req>): (r: (Hier, seq<Req>))
    requires Shaped(c, h)
    ensures Shaped(c, r.0)
    decreases |todo|
  {
    if todo == [] then (h, [])
    else
      var n := |todo| - 1;
      var (h1, kept) := ProcessAll(c, h, todo[..n]);
      var (h2, k) := ProcessReady(c, h1, todo[n]);
      (h2, if k.Some? then kept + [k.value] else kept)
  }

  /** Length of the longest prefix of ready packets. */
  function ReadyPrefix(q: seq<Req>, now: nat): (k: nat)
    ensures k <= |q|
    ensures forall i :: 0 <= i < k ==> q[i].ready <= now
    ensures k < |q| ==> q[k].ready > now
  {
    if q == [] || q[0].ready > now then 0
    else
      var k := ReadyPrefix(q[1..], now);
      assert forall i :: 0 < i < 1 + k ==> q[i] == q[1..][i - 1];
      1 + k
  }

  /** `Cache::Tick` on a queue sorted by ready time. */
  function CacheTick(c: Config, h: Hier): (r: Hier)
    requires Shaped(c, h)
    ensures Shaped(c, r)
  {
    var k := ReadyPrefix(h.pending, h.now);
    var (h1, kept) := ProcessAll(c, h, h.pending[..k]);
    h1.(pending := kept + h.pending[k..])
  }

  // -------------------------------------------------------------------- fills

  /** `writeBack`: a valid dirty block is sent to memory, which must take it. */
  function WriteBack(c: Config, h: Hier, i: nat, w: nat): (r: Hier)
    requires Shaped(c, h) && i < c.numSets && w < c.assoc
    ensures Shaped(c, r) && r.blocks == h.blocks
  {
    var b := h.blocks[i][w];
    if b.valid && b.dirty then
      var pkt := Packet(true, WriteBackPacket, GetAddress(c, Location(b.tag, i, 0)), c.blkSize, b.data);
      var (h1, ok) := MemRecv(c, h, Req(0, pkt, h.now));
      if ok then h1 else h1.(crashed := true)
    else h
  }

  function WaitingIn(s: SubEntry): seq<Req> {
    if s.valid && s.req.Some? then [s.req.value] else []
  }

  /** The packets of the valid sub-entries, in order. */
  function Waiting(subs: seq<SubEntry>): seq<Req> {
    if subs == [] then [] else Waiting(subs[..|subs| - 1]) + WaitingIn(subs[|subs| - 1])
  }

  function ServeAll(c: Config, h: Hier, i: nat, w: nat, reqs: seq<Req>): (r: Hier)
    requires Shaped(c, h) && i < c.numSets && w < c.assoc
    ensures Shaped(c, r)
    decreases |reqs|
  {
    if reqs == [] then h
    else
      var n := |reqs| - 1;
      ServeOn(c, ServeAll(c, h, i, w, reqs[..n]), i, w, reqs[n])
  }

  /** How `recvResp` looks for the entry of an answered block: as written it
      stops at the first entry for every address but 0; comparing it finds the
      entry of that block. */
  datatype Lookup = AsWritten | Comparing

  function LookupEntry(lookup: Lookup, mshr: seq<Entry>, address: Word): nat {
    match lookup
    case AsWritten => if address != 0 then 0 else |mshr|
    case Comparing => FindEntry(mshr, address)
  }

  function EmptySubs(n: nat): (s: seq<SubEntry>)
    ensures |s| == n
  {
    seq(n, _ => SubEntry(false, None))
  }

  /** The block that an answered read is put in, and its set and way. */
  function Placed(c: Config, h: Hier, pkt: Packet, choice: nat): (r: (Hier, nat))
    requires Shaped(c, h) && |pkt.data| == c.blkSize
    ensures Shaped(c, r.0) && r.1 < c.assoc
  {
    var l := GetLocation(c, pkt.addr);
    var w := FindWay(h.blocks[l.index], l.tag);
    if w < c.assoc then
      (SetBlock(c, h, l.index, w, h.blocks[l.index][w].(data := pkt.data)), w)
    else
      var v := VictimWay(h.blocks[l.index], choice);
      var h1 := WriteBack(c, h, l.index, v);
      (SetBlock(c, h1, l.index, v, Block(true, false, l.tag, pkt.data)), v)
  }

  /** `Cache::recvResp` on a read reply. */
  function Fill(c: Config, h: Hier, lookup: Lookup, pkt: Packet, choice: nat): (r: Hier)
    requires Shaped(c, h) && |pkt.data| == c.blkSize
    ensures Shaped(c, r)
  {
    var l := GetLocation(c, pkt.addr);
    var (h1, w) := Placed(c, h, pkt, choice);
    var i := LookupEntry(lookup, h1.mshr, pkt.addr);
    if i >= |h1.mshr| || !h1.mshr[i].valid then h1.(crashed := true)
    else
      var h2 := ServeAll(c, h1, l.index, w, Waiting(h1.mshr[i].subs));
      SetEntry(c, h2, i, Entry(false, 0, false, EmptySubs(c.subentries)))
  }

  /** Main memory services the packet at the front of its queue; an access that
      leaves the region found for it is fatal. */
  function MemServe(c: Config, h: Hier, lookup: Lookup, choice: nat): (r: Hier)
    requires Shaped(c, h) && h.queue != []
    ensures Shaped(c, r)
  {
    var pkt := h.queue[0].pkt;
    var h1 := h.(queue := h.queue[1..]);
    if !Mapped(pkt.addr, pkt.size) then h1.(crashed := true)
    else if pkt.isWrite then
      h1.(store := After(h.store, pkt), crashed := h.crashed || pkt.ptype != WriteBackPacket)
    else if pkt.size != c.blkSize then h1.(crashed := true)
    else Fill(c, h1, lookup, pkt.(data := ReadBytes(h.store, pkt.addr, pkt.size)), choice)
  }

  // ------------------------------------------------------------------- events

  /** `Cache::recvReq`: refused when the queue is full. */
  function Submit(c: Config, h: Hier, pkt: Packet): (Hier, bool) {
    if |h.pending| < CAPACITY then
      (h.(pending := h.pending + [Req(h.accepted, pkt, h.now + c.delay)], accepted := h.accepted + 1), true)
    else (h, false)
  }

  /** How many turns the queue can still take: a read may add one write. */
  function Work(queue: seq<Req>): nat {
    if queue == [] then 0 else Work(queue[1..]) + if queue[0].pkt.isWrite then 1 else 2
  }
}
