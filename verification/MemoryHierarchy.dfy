/** Main memory and the data cache as the objects that the simulator ticks:
    byte arrays, queues, blocks and miss registers, updated in place. Each
    method is proved to do what the transition function on values says. */
module MemoryHierarchy {
  import opened Words
  import opened Isa
  import opened Packets
  import opened Geometry
  import opened CacheSpec
  import opened CacheRuns
  import opened CacheFrames

  // ------------------------------------------------------------------ regions

  predicate Inside(r: Region, addr: int, size: int) {
    r.start <= addr && addr + size < r.start + r.size
  }

  /** The region that the lookup finds contains the access exactly when the end
      of the access does not wrap at 32 bits. */
  lemma FoundContainsIff(addr: Word, size: nat)
    requires RegionIndex(addr, size) != 5
    ensures Inside(REGIONS[RegionIndex(addr, size)], addr, size) <==> Mapped(addr, size)
  {
  }

  /** An access inside a region is found there, unless it uses the last byte of
      the region: the comparison with the end is strict. */
  lemma LastByteIsRefusedIff(i: nat, addr: Word, size: nat)
    requires i < 5 && 0 < size && REGIONS[i].start <= addr && addr + size <= REGIONS[i].start + REGIONS[i].size
    ensures RegionIndex(addr, size) == if addr + size == REGIONS[i].start + REGIONS[i].size then 5 else i
  {
  }

  /** The region of an address, or 5. */
  function RegionAt(a: int): (i: nat)
    ensures i <= 5 && (i < 5 ==> REGIONS[i].start <= a < REGIONS[i].start + REGIONS[i].size)
  {
    if 0x0040_0000 <= a < 0x0050_0000 then 0
    else if 0x1000_0000 <= a < 0x1010_0000 then 1
    else if 0x7FF0_0000 <= a < 0x8000_0000 then 2
    else if 0x9000_0000 <= a < 0x9010_0000 then 3
    else if 0x8000_0000 <= a < 0x8010_0000 then 4
    else 5
  }

  lemma MappedIsAt(addr: Word, size: nat, k: nat)
    requires Mapped(addr, size) && k < size
    ensures RegionAt(addr + k) == RegionIndex(addr, size)
  {
  }

  // -------------------------------------------------------------- main memory

  lemma WorkOfWrite(q: seq<Req>, r: Req)
    requires r.pkt.isWrite
    ensures Work(q + [r]) == Work(q) + 1
  {
    if q != [] {
      assert (q + [r])[1..] == q[1..] + [r];
      WorkOfWrite(q[1..], r);
    }
  }

  /** Servicing the front packet leaves main memory less to do, even when it
      brings a write-back into the queue. */
  lemma WorkDecreases(c: Config, h: Hier, lookup: Lookup, choice: nat)
    requires Shaped(c, h) && h.queue != []
    ensures Work(MemServe(c, h, lookup, choice).queue) < Work(h.queue)
  {
    hide MemServe;
    ServeFrame(c, h, lookup, choice);
    var r := MemServe(c, h, lookup, choice);
    if r.queue != h.queue[1..] {
      var n := |h.queue| - 1;
      assert r.queue == h.queue[1..] + [r.queue[n]];
      WorkOfWrite(h.queue[1..], r.queue[n]);
    }
  }

  /** `BaseMemory::Tick`: services packets while the front one is ready. */
  function MemTick(c: Config, h: Hier, rand: nat -> nat, n: nat): (r: Hier)
    requires Shaped(c, h)
    ensures Shaped(c, r)
    decreases Work(h.queue)
  {
    if h.crashed || h.queue == [] || h.queue[0].ready > h.now then h
    else
      WorkDecreases(c, h, AsWritten, rand(n));
      MemTick(c, MemServe(c, h, AsWritten, rand(n)), rand, n + 1)
  }

  lemma MemTickStep(c: Config, h: Hier, rand: nat -> nat, n: nat)
    requires Shaped(c, h)
    ensures MemTick(c, h, rand, n) == if h.crashed || h.queue == [] || h.queue[0].ready > h.now then h
                                      else MemTick(c, MemServe(c, h, AsWritten, rand(n)), rand, n + 1)
  {
  }

  class BaseMemory {
    const accessDelay: nat
    const regions: seq<array<Byte>>
    var pendingPackets: seq<Req>

    ghost predicate Valid() {
      && |regions| == 5
      && (forall i :: 0 <= i < 5 ==> regions[i].Length == REGIONS[i].size)
      && (forall i, j :: 0 <= i < j < 5 ==> regions[i] != regions[j])
    }

    /** Every queued request has a region, and as many bytes as it says. */
    ghost predicate Servable()
      reads this
    {
      forall i :: 0 <= i < |pendingPackets| ==>
        && RegionIndex(pendingPackets[i].pkt.addr, pendingPackets[i].pkt.size) != 5
        && |pendingPackets[i].pkt.data| == pendingPackets[i].pkt.size
    }

    /** The contents as a flat memory. */
    ghost function Store(): Mem
      requires Valid()
      reads regions
    {
      map a: int | 0 <= a < 0x1_0000_0000 && RegionAt(a) < 5 :: regions[RegionAt(a)][a - REGIONS[RegionAt(a)].start]
    }

    constructor (accessDelay: nat)
      ensures Valid() && this.accessDelay == accessDelay && pendingPackets == []
      ensures fresh(regions) && forall a :: Get(Store(), a) == 0
    {
      this.accessDelay := accessDelay;
      pendingPackets := [];
      var text := new Byte[REGIONS[0].size](_ => 0);
      var data := new Byte[REGIONS[1].size](_ => 0);
      var stack := new Byte[REGIONS[2].size](_ => 0);
      var kdata := new Byte[REGIONS[3].size](_ => 0);
      var ktext := new Byte[REGIONS[4].size](_ => 0);
      regions := [text, data, stack, kdata, ktext];
    }

    /** Index of the region that holds the access, or 5. */
    method GetMemRegion(addr: Word, size: nat) returns (i: nat)
      ensures i == RegionIndex(addr, size)
    {
      i := 0;
      while i < 5
        invariant i <= 5
        invariant forall j :: 0 <= j < i ==> !Holds(REGIONS[j], addr, size)
      {
        if addr >= REGIONS[i].start && Wrap(addr + size) < Wrap(REGIONS[i].start as int + REGIONS[i].size) {
          return;
        }
        i := i + 1;
      }
    }

    /** Takes a request unless the queue is full; `fault` tells of an access
        that no region is found for. */
    method RecvReq(req: Req) returns (ok: bool, fault: bool)
      modifies `pendingPackets
      ensures old(Servable()) && |req.pkt.data| == req.pkt.size ==> Servable()
      ensures fault <==> RegionIndex(req.pkt.addr, req.pkt.size) == 5
      ensures ok <==> !fault && |old(pendingPackets)| < 100
      ensures pendingPackets == if ok then old(pendingPackets) + [req.(ready := req.ready + accessDelay)]
              else old(pendingPackets)
    {
      var i := GetMemRegion(req.pkt.addr, req.pkt.size);
      if i == 5 {
        return false, true;
      }
      if |pendingPackets| < CAPACITY {
        pendingPackets := pendingPackets + [req.(ready := req.ready + accessDelay)];
        return true, false;
      }
      return false, false;
    }

    lemma StoreAt(addr: Word, size: nat, k: nat)
      requires Valid() && Mapped(addr, size) && k < size
      ensures var i := RegionIndex(addr, size);
              && 0 <= addr - REGIONS[i].start + k < regions[i].Length
              && Get(Store(), addr + k) == regions[i][addr - REGIONS[i].start + k]
              && addr + k in Store()
    {
      MappedIsAt(addr, size, k);
    }

    /** Services the packets that are ready, in order, and hands each block read
        to the cache; `rand` is what the victim choice draws. */
    method Tick(prev: Cache, rand: nat -> nat) returns (replies: seq<Req>)
      requires prev.Valid() && prev.next == this
      modifies this, regions, prev, prev.blocks, prev.mshr
      ensures prev.Valid() && prev.trace == old(prev.trace) + replies
      ensures prev.Snapshot() == MemTick(prev.c, old(prev.Snapshot()), rand, 0)
    {
      ghost var h := prev.Snapshot();
      prev.ValidIsShaped();
      hide *;
      replies := [];
      var n := 0;
      while !prev.crashed && pendingPackets != [] && pendingPackets[0].ready <= prev.now
        invariant prev.Valid() && prev.trace == old(prev.trace) + replies
        invariant MemTick(prev.c, h, rand, 0) == MemTick(prev.c, prev.Snapshot(), rand, n)
        decreases Work(pendingPackets)
      {
        prev.ValidIsShaped();
        prev.SnapshotHas();
        MemTickStep(prev.c, prev.Snapshot(), rand, n);
        WorkDecreases(prev.c, prev.Snapshot(), AsWritten, rand(n));
        var served := ServeFront(prev, rand(n));
        Joined(old(prev.trace), replies, served);
        replies := replies + served;
        prev.SnapshotHas();
        n := n + 1;
      }
      prev.SnapshotHas();
      MemTickStep(prev.c, prev.Snapshot(), rand, n);
    }

    /** Services the packet at the front of the queue. */
    method ServeFront(prev: Cache, choice: nat) returns (replies: seq<Req>)
      requires prev.Valid() && prev.next == this && pendingPackets != []
      modifies this, regions, prev, prev.blocks, prev.mshr
      ensures prev.Valid() && prev.trace == old(prev.trace) + replies
      ensures prev.Snapshot() == MemServe(prev.c, old(prev.Snapshot()), AsWritten, choice)
    {
      hide Store, Cache.Sets, Fill, ReadBytes, WriteBytes, RegionIndex;
      replies := [];
      var pkt := pendingPackets[0].pkt;
      pendingPackets := pendingPackets[1..];
      if pkt.addr + pkt.size >= 0x1_0000_0000 {
        prev.crashed := true;
      } else if pkt.isWrite {
        WriteData(pkt.addr, pkt.data);
        if pkt.ptype != WriteBackPacket {
          replies := prev.RecvResp(pkt, choice);
        }
      } else {
        var data := ReadData(pkt.addr, pkt.size);
        if pkt.size != prev.c.blkSize {
          prev.crashed := true;
        } else {
          replies := prev.RecvResp(pkt.(data := data), choice);
        }
      }
    }

    /** Performs a read: the bytes are copied one by one into the packet. */
    method ReadData(addr: Word, size: nat) returns (d: seq<Byte>)
      requires Valid() && Mapped(addr, size)
      ensures d == ReadBytes(Store(), addr, size)
    {
      var i := GetMemRegion(addr, size);
      var index := addr - REGIONS[i].start;
      var data := new Byte[size];
      for k := 0 to size
        invariant forall j :: 0 <= j < k ==> data[j] == Get(Store(), addr + j)
      {
        StoreAt(addr, size, k);
        data[k] := regions[i][index + k];
      }
      d := data[..];
    }

    /** Sets one byte. */
    method SetByte(i: nat, k: nat, b: Byte)
      requires Valid() && i < 5 && k < regions[i].Length
      modifies regions
      ensures Store() == old(Store())[REGIONS[i].start + k := b]
    {
      AtStart(i, k);
      regions[i][k] := b;
      ghost var x := REGIONS[i].start + k;
      assert forall a :: a in Store() ==> a in old(Store());
      forall a: int | a in Store() ensures Store()[a] == if a == x then b else old(Store())[a] {
        var j := RegionAt(a);
        if j != i { assert regions[j] != regions[i]; }
      }
    }

    /** Performs a write: the bytes are copied one by one out of the packet. */
    method WriteData(addr: Word, d: seq<Byte>)
      requires Valid() && Mapped(addr, |d|)
      modifies regions
      ensures Store() == WriteBytes(old(Store()), addr, d)
    {
      hide Store;
      var i := GetMemRegion(addr, |d|);
      var index := addr - REGIONS[i].start;
      assert d[..0] == [];
      for k := 0 to |d|
        invariant Store() == WriteBytes(old(Store()), addr, d[..k])
      {
        StoreAt(addr, |d|, k);
        SetByte(i, index + k, d[k]);
        assert d[..k + 1][..k] == d[..k];
      }
      assert d[..|d|] == d;
    }
  }

  lemma AtStart(i: nat, k: nat)
    requires i < 5 && k < REGIONS[i].size
    ensures RegionAt(REGIONS[i].start + k) == i
  {
  }

  // -------------------------------------------------------------------- cache

  class Cache {
    const c: Config
    const next: BaseMemory
    const blocks: seq<array<Block>>
    const mshr: array<Entry>
    var pendingPackets: seq<Req>
    var now: nat
    var accepted: nat
    var crashed: bool
    ghost var trace: seq<Req>

    ghost predicate Layout() {
      && |blocks| == c.numSets && (forall i :: 0 <= i < |blocks| ==> blocks[i].Length == c.assoc)
      && (forall i, j :: 0 <= i < j < |blocks| ==> blocks[i] != blocks[j])
      && mshr.Length == c.entries
      && next.Valid() && next.accessDelay == c.memDelay
    }

    ghost function Sets(): seq<seq<Block>>
      reads blocks
    {
      seq(|blocks|, i requires 0 <= i < |blocks| reads blocks => blocks[i][..])
    }

    ghost function Snapshot(): Hier
      requires Layout()
      reads this, next, next.regions, blocks, mshr
    {
      Hier(Sets(), pendingPackets, mshr[..], next.Store(), next.pendingPackets, now, accepted, trace, crashed)
    }

    ghost predicate Valid()
      reads this, next, next.regions, blocks, mshr
    {
      Layout() && Shaped(c, Snapshot()) && next.Servable()
    }

    constructor (c: Config, next: BaseMemory)
      requires next.Valid() && next.accessDelay == c.memDelay && next.pendingPackets == []
      ensures Valid() && this.c == c && this.next == next && fresh(mshr)
      ensures forall i :: 0 <= i < |blocks| ==> fresh(blocks[i])
      ensures Snapshot() == StartHier(c, next.Store())
    {
      this.c, this.next := c, next;
      pendingPackets, now, accepted, crashed, trace := [], 0, 0, false, [];
      var zeros := seq<Byte>(c.blkSize, _ => 0);
      var empty := Block(false, false, 0, zeros);
      var sets: seq<array<Block>> := [];
      for i := 0 to c.numSets
        invariant |sets| == i
        invariant forall j :: 0 <= j < i ==> sets[j].Length == c.assoc && fresh(sets[j])
        invariant forall j :: 0 <= j < i ==> sets[j][..] == seq(c.assoc, _ => empty)
        invariant forall j, k :: 0 <= j < k < i ==> sets[j] != sets[k]
      {
        var ways := new Block[c.assoc](_ => empty);
        assert ways[..] == seq(c.assoc, _ => empty);
        sets := sets + [ways];
      }
      blocks := sets;
      mshr := new Entry[c.entries](_ => Entry(false, 0, false, EmptySubs(c.subentries)));
      new;
      assert Sets() == seq(c.numSets, _ => seq(c.assoc, _ => empty));
      assert mshr[..] == seq(c.entries, _ => Entry(false, 0, false, EmptySubs(c.subentries)));
    }

    method SetBlockAt(i: nat, w: nat, b: Block)
      requires Valid() && i < c.numSets && w < c.assoc && |b.data| == c.blkSize
      modifies blocks[i]
      ensures Valid() && Snapshot() == SetBlock(c, old(Snapshot()), i, w, b)
    {
      blocks[i][w] := b;
      forall j | 0 <= j < |blocks| ensures blocks[j][..] == old(Sets())[i := old(Sets())[i][w := b]][j] {
        if j != i { assert blocks[j] != blocks[i]; }
      }
      assert Sets() == old(Sets())[i := old(Sets())[i][w := b]];
    }

    method SetEntryAt(i: nat, e: Entry)
      requires Valid() && i < c.entries && |e.subs| == c.subentries
      modifies mshr
      ensures Valid() && Snapshot() == SetEntry(c, old(Snapshot()), i, e)
    {
      mshr[i] := e;
      assert mshr[..] == old(mshr[..])[i := e];
    }

    /** The way that holds the block of `addr`, or the number of ways. */
    method GetWay(addr: Word) returns (way: nat)
      requires Valid()
      ensures var l := GetLocation(c, addr);
              way == FindWay(Snapshot().blocks[l.index], l.tag) && way <= c.assoc
    {
      var l := GetLocation(c, addr);
      way := 0;
      while way < c.assoc && !(blocks[l.index][way].valid && blocks[l.index][way].tag == l.tag)
        invariant way <= c.assoc
        invariant forall v :: 0 <= v < way ==> !HoldsTag(blocks[l.index][v], l.tag)
      {
        way := way + 1;
      }
      assert Sets()[l.index] == blocks[l.index][..];
      FirstWay(blocks[l.index][..], l.tag, way);
    }

    /** The way to evict: one that holds nothing if there is one, else the one
        that the replacement policy chooses. */
    method GetVictim(addr: Word, choice: nat) returns (way: nat)
      requires Valid()
      ensures way == VictimWay(Snapshot().blocks[GetLocation(c, addr).index], choice) && way < c.assoc
    {
      var i := GetLocation(c, addr).index;
      assert Sets()[i] == blocks[i][..];
      way := 0;
      while way < c.assoc
        invariant way <= c.assoc
        invariant forall v :: 0 <= v < way ==> blocks[i][v].valid
      {
        if !blocks[i][way].valid {
          FirstInvalid(blocks[i][..], way);
          return;
        }
        way := way + 1;
      }
      FirstInvalid(blocks[i][..], way);
      way := choice % c.assoc;
    }

    /** Takes a request unless the queue is full. */
    method RecvReq(pkt: Packet) returns (ok: bool)
      requires Valid()
      modifies `pendingPackets, `accepted
      ensures ok <==> |old(pendingPackets)| < 100
      ensures pendingPackets == if ok then old(pendingPackets) + [Req(old(accepted), pkt, now + c.delay)]
              else old(pendingPackets)
      ensures Valid() && (Snapshot(), ok) == Submit(c, old(Snapshot()), pkt)
    {
      hide BaseMemory.Store;
      if |pendingPackets| < CAPACITY {
        pendingPackets := pendingPackets + [Req(accepted, pkt, now + c.delay)];
        accepted := accepted + 1;
        return true;
      }
      return false;
    }

    /** Services a packet on the block in set `i`, way `w`. */
    method ApplyPacketToCacheBlock(i: nat, w: nat, req: Req) returns (replies: seq<Req>)
      requires Valid() && i < c.numSets && w < c.assoc
      modifies blocks[i], `crashed, `trace
      ensures Valid() && Snapshot() == ServeOn(c, old(Snapshot()), i, w, req) && trace == old(trace) + replies
    {
      hide BaseMemory.Store, GetLocation;
      assert Sets()[i][w] == blocks[i][w];
      var offset := GetLocation(c, req.pkt.addr).offset;
      var block := blocks[i][w];
      if |req.pkt.data| != req.pkt.size || offset + req.pkt.size > c.blkSize {
        crashed := true;
        return [];
      }
      var reply := req;
      if req.pkt.isWrite {
        var data := OverwriteData(block.data, offset, req.pkt.data);
        block := block.(data := data, dirty := true);
      } else {
        var data := OverwriteData(req.pkt.data, 0, block.data[offset..offset + req.pkt.size]);
        assert data == block.data[offset..offset + req.pkt.size];
        reply := req.(pkt := req.pkt.(data := data));
      }
      assert (block, reply.pkt) == Apply(c, Sets()[i][w], req.pkt);
      hide Apply, Sets;
      SetBlockAt(i, w, block);
      trace := trace + [reply];
      return [reply];
    }

    /** Sends a request on to main memory. */
    method SendToMemory(req: Req) returns (ok: bool)
      requires Valid() && |req.pkt.data| == req.pkt.size
      modifies next`pendingPackets, `crashed
      ensures Valid() && (Snapshot(), ok) == MemRecv(c, old(Snapshot()), req)
    {
      hide BaseMemory.Store, RegionIndex, Sets;
      var fault;
      ok, fault := next.RecvReq(req);
      if fault {
        crashed := true;
      }
    }

    /** `writeBack`: a valid dirty block is sent to memory, which must take it. */
    method WriteBackBlock(i: nat, w: nat)
      requires Valid() && i < c.numSets && w < c.assoc
      modifies next`pendingPackets, `crashed
      ensures Valid() && Snapshot() == WriteBack(c, old(Snapshot()), i, w)
    {
      hide BaseMemory.Store, GetAddress, MemRecv;
      assert Sets()[i][w] == blocks[i][w];
      var block := blocks[i][w];
      if block.valid && block.dirty {
        var address := GetAddress(c, Location(block.tag, i, 0));
        var ok := SendToMemory(Req(0, Packet(true, WriteBackPacket, address, c.blkSize, block.data), now));
        if !ok {
          crashed := true;
        }
      }
    }

    /** Index of the first entry for the block `address`, or the number of entries. */
    method FindMshr(address: Word) returns (i: nat)
      ensures i == FindEntry(mshr[..], address)
    {
      i := 0;
      while i < mshr.Length && !(mshr[i].address == address && mshr[i].valid)
        invariant i <= mshr.Length
        invariant forall j :: 0 <= j < i ==> !HoldsMiss(mshr[j], address)
      {
        i := i + 1;
      }
      FirstMiss(mshr[..], address, i);
    }

    method FindFreeMshr() returns (i: nat)
      ensures i == FindFreeEntry(mshr[..])
    {
      i := 0;
      while i < mshr.Length && mshr[i].valid
        invariant i <= mshr.Length
        invariant forall j :: 0 <= j < i ==> mshr[j].valid
      {
        i := i + 1;
      }
      FirstFree(mshr[..], i);
    }

    method FindOpenSlot(subs: seq<SubEntry>) returns (j: nat)
      ensures j == FindFreeSub(subs)
    {
      j := 0;
      while j < |subs| && subs[j].valid
        invariant j <= |subs|
        invariant forall k :: 0 <= k < j ==> subs[k].valid
      {
        j := j + 1;
      }
      FirstOpen(subs, j);
    }

    /** The entry for the block, or a free one, or the number of entries. */
    method FindOrTake(address: Word) returns (i: nat)
      ensures var found := FindEntry(mshr[..], address);
              i == if found < mshr.Length then found else FindFreeEntry(mshr[..])
    {
      i := FindMshr(address);
      if i == mshr.Length {
        i := FindFreeMshr();
      }
    }

    /** A packet whose block is not in the cache: true when it now waits in the
        miss registers. */
    method ProcessCacheMiss(req: Req) returns (ok: bool)
      requires Valid()
      modifies mshr, next`pendingPackets, `crashed
      ensures Valid() && (Snapshot(), ok) == ProcessMiss(c, old(Snapshot()), req)
    {
      hide BaseMemory.Store, BlockAddress, Sets, MemRecv, FindEntry, FindFreeEntry, FindFreeSub;
      var address := BlockAddress(c, req.pkt.addr);
      var i := FindOrTake(address);
      if i == mshr.Length {
        return false;
      }
      var entry := mshr[i].(address := address);
      var j := FindOpenSlot(entry.subs);
      if j == |entry.subs| {
        SetEntryAt(i, entry);
        return false;
      }
      ok := true;
      if !entry.issued {
        ok := SendToMemory(BlockRead(c, req));
      }
      if ok {
        entry := entry.(subs := entry.subs[j := SubEntry(true, Some(req))], valid := true, issued := true);
      } else {
        entry := entry.(subs := entry.subs[j := SubEntry(false, Some(req))]);
      }
      SetEntryAt(i, entry);
    }

    // ------------------------------------------------------------------ fills

    /** Puts an answered block in its way, or in that of a victim. */
    method PlaceBlock(pkt: Packet, choice: nat) returns (way: nat)
      requires Valid() && |pkt.data| == c.blkSize
      modifies blocks, next`pendingPackets, `crashed
      ensures Valid() && (Snapshot(), way) == Placed(c, old(Snapshot()), pkt, choice) && way < c.assoc
    {
      hide BaseMemory.Store, GetLocation, WriteBack, FindWay, VictimWay, SetBlock;
      var l := GetLocation(c, pkt.addr);
      way := GetWay(pkt.addr);
      var block: Block;
      if way == c.assoc {
        way := GetVictim(pkt.addr, choice);
        WriteBackBlock(l.index, way);
        block := Block(true, false, l.tag, blocks[l.index][way].data);
      } else {
        block := blocks[l.index][way];
      }
      assert Sets()[l.index][way] == blocks[l.index][way];
      var data := OverwriteData(block.data, 0, pkt.data);
      assert data == pkt.data;
      SetBlockAt(l.index, way, block.(data := data));
    }

    /** Services every packet that waits in `subs`. */
    method ServeSubEntries(i: nat, w: nat, subs: seq<SubEntry>) returns (replies: seq<Req>)
      requires Valid() && i < c.numSets && w < c.assoc
      modifies blocks[i], `crashed, `trace
      ensures Valid() && Snapshot() == ServeAll(c, old(Snapshot()), i, w, Waiting(subs))
              && trace == old(trace) + replies
    {
      hide BaseMemory.Store, ServeOn, Sets, Snapshot;
      replies := [];
      assert subs[..0] == [];
      for j := 0 to |subs|
        invariant Valid() && Snapshot() == ServeAll(c, old(Snapshot()), i, w, Waiting(subs[..j]))
                  && trace == old(trace) + replies
      {
        assert subs[..j + 1][..j] == subs[..j];
        if subs[j].valid && subs[j].req.Some? {
          var served := ApplyPacketToCacheBlock(i, w, subs[j].req.value);
          Joined(old(trace), replies, served);
          replies := replies + served;
          ServeOneMore(c, old(Snapshot()), i, w, Waiting(subs[..j]), subs[j].req.value);
        } else {
          assert Waiting(subs[..j + 1]) == Waiting(subs[..j]);
        }
      }
      assert subs[..|subs|] == subs;
    }

    /** A reply from main memory: the block is put in the cache and the packets
        that wait for it are serviced. The search for the entry is the one of
        the source, which stops at the first entry for every address but 0. */
    method RecvResp(pkt: Packet, choice: nat) returns (replies: seq<Req>)
      requires Valid() && (!pkt.isWrite ==> |pkt.data| == c.blkSize)
      modifies blocks, mshr, next`pendingPackets, `crashed, `trace
      ensures Valid() && trace == old(trace) + replies
      ensures Snapshot() == if pkt.isWrite then old(Snapshot()).(crashed := true)
                            else Fill(c, old(Snapshot()), AsWritten, pkt, choice)
    {
      hide BaseMemory.Store, GetLocation, Placed, ServeAll, Waiting, Sets;
      replies := [];
      if pkt.isWrite {
        crashed := true;
        return;
      }
      var way := PlaceBlock(pkt, choice);
      var i := 0;
      while i < mshr.Length && pkt.addr == 0
        invariant i == 0 || pkt.addr == 0
        invariant i <= mshr.Length
      {
        i := i + 1;
      }
      if i == mshr.Length || !mshr[i].valid {
        crashed := true;
        return;
      }
      replies := ServeSubEntries(GetLocation(c, pkt.addr).index, way, mshr[i].subs);
      SetEntryAt(i, Entry(false, 0, false, EmptySubs(c.subentries)));
    }

    // ------------------------------------------------------------------ ticks

    /** How many packets at the front of the queue are ready. */
    method ReadyEnd() returns (k: nat)
      ensures k == ReadyPrefix(pendingPackets, now)
    {
      k := 0;
      while k < |pendingPackets| && pendingPackets[k].ready <= now
        invariant k <= |pendingPackets|
        invariant forall i :: 0 <= i < k ==> pendingPackets[i].ready <= now
      {
        k := k + 1;
      }
      PrefixIs(pendingPackets, now, k);
    }

    /** A refused packet is tried again in the next cycle. */
    method TryAgain(i: nat)
      requires Valid() && i < |pendingPackets|
      modifies `pendingPackets
      ensures Valid() && pendingPackets == old(pendingPackets)[i := old(pendingPackets)[i].(ready := now + 1)]
      ensures Snapshot() == old(Snapshot()).(pending := pendingPackets)
    {
      hide BaseMemory.Store, Sets;
      pendingPackets := pendingPackets[i := pendingPackets[i].(ready := now + 1)];
    }

    /** Packet `i` of the queue misses: it goes to the miss registers, or is
        refused and tried again in the next cycle. */
    method ProcessMissing(i: nat)
      requires Valid() && i < |pendingPackets|
      modifies mshr, next`pendingPackets, `pendingPackets, `crashed
      ensures Valid()
      ensures var h := old(Snapshot());
              var (r, ok) := ProcessMiss(c, h, h.pending[i]);
              Snapshot() == if ok then r else r.(pending := r.pending[i := h.pending[i].(ready := h.now + 1)])
    {
      ghost var h := Snapshot();
      SnapshotHas();
      MissFrame(c, h, pendingPackets[i]);
      hide *;
      var ok := ProcessCacheMiss(pendingPackets[i]);
      SnapshotHas();
      if !ok {
        TryAgain(i);
      }
    }

    /** Packet `i` of the queue is serviced, or moved to the miss registers, or
        refused and tried again in the next cycle. */
    method ProcessPacket(i: nat) returns (replies: seq<Req>)
      requires Valid() && i < |pendingPackets|
      modifies blocks, mshr, next`pendingPackets, `pendingPackets, `crashed, `trace
      ensures Valid() && trace == old(trace) + replies
      ensures Processed(c, old(Snapshot()), i, Snapshot())
    {
      var req := pendingPackets[i];
      ghost var h := Snapshot();
      SnapshotHas();
      ReadyFrame(c, h, req);
      ReadyIs(c, h, req);
      hide *;
      var way := GetWay(req.pkt.addr);
      if way == c.assoc {
        ProcessMissing(i);
        ProcessedIs(c, h, i, !ProcessMiss(c, h, req).1, Snapshot());
        replies := [];
      } else {
        replies := ApplyPacketToCacheBlock(GetLocation(c, req.pkt.addr).index, way, req);
        ProcessedIs(c, h, i, false, Snapshot());
      }
    }

    /** Processes the first `n` packets; a refused one gets a new ready time. */
    method ProcessReadyPackets(n: nat) returns (replies: seq<Req>)
      requires Valid() && n <= |pendingPackets| && forall i :: 0 <= i < n ==> pendingPackets[i].ready <= now
      modifies blocks, mshr, next`pendingPackets, `pendingPackets, `crashed, `trace
      ensures Valid() && trace == old(trace) + replies
      ensures ProcessedAll(c, old(Snapshot()), n, Snapshot())
    {
      ghost var h := Snapshot();
      SnapshotHas();
      NothingProcessed(c, h);
      hide *;
      replies := [];
      for i := 0 to n
        invariant Valid() && trace == old(trace) + replies
        invariant ProcessedAll(c, h, i, Snapshot())
      {
        ghost var s := Snapshot();
        SnapshotHas();
        ProcessedSame(c, h, i, s);
        var served := ProcessPacket(i);
        ProcessOneMore(c, h, i, s, Snapshot());
        Joined(old(trace), replies, served);
        replies := replies + served;
      }
    }

    /** Erases the packets whose ready time has come. */
    method EraseReady()
      requires Valid()
      modifies `pendingPackets
      ensures Valid() && Snapshot() == old(Snapshot()).(pending := Later(old(pendingPackets), now))
    {
      hide BaseMemory.Store, Sets;
      var kept := [];
      for i := 0 to |pendingPackets|
        invariant kept == Later(pendingPackets[..i], now)
      {
        assert pendingPackets[..i + 1][..i] == pendingPackets[..i];
        if !(pendingPackets[i].ready <= now) {
          kept := kept + [pendingPackets[i]];
        }
      }
      assert pendingPackets[..|pendingPackets|] == pendingPackets;
      pendingPackets := kept;
    }

    /** Processes the ready packets of a queue sorted by ready time, and erases
        exactly those that were serviced or moved to the miss registers. */
    method Tick() returns (replies: seq<Req>)
      requires Valid() && Disciplined(c, Snapshot())
      modifies blocks, mshr, next`pendingPackets, `pendingPackets, `crashed, `trace
      ensures Valid() && Snapshot() == CacheTick(c, old(Snapshot())) && trace == old(trace) + replies
    {
      hide BaseMemory.Store, Sets, ProcessAll, Later, Disciplined;
      ghost var h := Snapshot();
      var readyEnd := ReadyEnd();
      replies := ProcessReadyPackets(readyEnd);
      assert pendingPackets == pendingPackets[..readyEnd] + h.pending[readyEnd..];
      LaterRest(c, h, pendingPackets[..readyEnd], readyEnd);
      EraseReady();
    }

    lemma ValidIsShaped()
      requires Valid()
      ensures Layout() && Shaped(c, Snapshot())
    {
    }

    lemma SnapshotHas()
      requires Valid()
      ensures Snapshot().now == now && Snapshot().pending == pendingPackets && Snapshot().trace == trace
      ensures Snapshot().queue == next.pendingPackets && Snapshot().crashed == crashed
    {
    }
  }

  /** Copies `source` into `dest` from `offset` on, byte by byte. */
  method OverwriteData(dest: seq<Byte>, offset: nat, source: seq<Byte>) returns (r: seq<Byte>)
    requires offset + |source| <= |dest|
    ensures r == Splice(dest, offset, source)
  {
    r := dest;
    for i := 0 to |source|
      invariant |r| == |dest|
      invariant forall k :: 0 <= k < |dest| ==> r[k] == if offset <= k < offset + i then source[k - offset] else dest[k]
    {
      r := r[offset + i := source[i]];
    }
  }

  /** The packets of a queue that are not ready. */
  function Later(q: seq<Req>, now: nat): seq<Req> {
    if q == [] then []
    else
      var r := Later(q[..|q| - 1], now);
      if q[|q| - 1].ready > now then r + [q[|q| - 1]] else r
  }

  lemma LaterOneMore(p: seq<Req>, x: Req, now: nat)
    ensures Later(p + [x], now) == if x.ready > now then Later(p, now) + [x] else Later(p, now)
  {
    assert (p + [x])[..|p|] == p;
  }

  /** Packet `i` of `h` has been processed and the rest of the queue left alone. */
  predicate Processed(c: Config, h: Hier, i: nat, r: Hier)
    requires Shaped(c, h) && i < |h.pending|
  {
    var (h1, k) := ProcessReady(c, h, h.pending[i]);
    r == h1.(pending := if k.Some? then h.pending[i := k.value] else h.pending)
  }

  lemma ReadyIs(c: Config, h: Hier, req: Req)
    requires Shaped(c, h)
    ensures var l := GetLocation(c, req.pkt.addr);
            var w := FindWay(h.blocks[l.index], l.tag);
            && (w == c.assoc ==>
                  var (r, ok) := ProcessMiss(c, h, req);
                  ProcessReady(c, h, req) == (r, if ok then None else Some(req.(ready := h.now + 1))))
            && (w < c.assoc ==> ProcessReady(c, h, req) == (ServeOn(c, h, l.index, w, req), None))
  {
    hide GetLocation, ProcessMiss, ServeOn, FindWay;
  }

  lemma ProcessedIs(c: Config, h: Hier, i: nat, refused: bool, r: Hier)
    requires Shaped(c, h) && i < |h.pending|
    requires var (h1, k) := ProcessReady(c, h, h.pending[i]);
             && k == (if refused then Some(h.pending[i].(ready := h.now + 1)) else None) && h1.pending == h.pending
             && r == if refused then h1.(pending := h.pending[i := h.pending[i].(ready := h.now + 1)]) else h1
    ensures Processed(c, h, i, r)
  {
    hide ProcessReady;
  }

  /** The first `n` packets of `h` have been processed: those refused are still
      in the queue with a later ready time, the others are still there but ready. */
  predicate ProcessedAll(c: Config, h: Hier, n: nat, r: Hier)
    requires Shaped(c, h) && n <= |h.pending|
  {
    var (h1, kept) := ProcessAll(c, h, h.pending[..n]);
    && r == h1.(pending := r.pending) && r.now == h.now
    && |r.pending| == |h.pending| && r.pending[n..] == h.pending[n..]
    && Later(r.pending[..n], h.now) == kept
  }

  lemma NothingProcessed(c: Config, h: Hier)
    requires Shaped(c, h)
    ensures ProcessedAll(c, h, 0, h)
  {
  }

  lemma ProcessedSame(c: Config, h: Hier, i: nat, s: Hier)
    requires Shaped(c, h) && i <= |h.pending| && ProcessedAll(c, h, i, s)
    ensures |s.pending| == |h.pending|
  {
    hide ProcessAll, Later;
  }

  lemma QueueOneMore(p: seq<Req>, q: seq<Req>, i: nat, x: Req, now: nat)
    requires |p| == |q| && i < |q| && p[i..] == q[i..]
    ensures p[i] == q[i] && p[i := x][i + 1..] == q[i + 1..]
    ensures Later(p[i := x][..i + 1], now) == if x.ready > now then Later(p[..i], now) + [x] else Later(p[..i], now)
  {
    assert p[i] == q[i] by { assert p[i..][0] == q[i..][0]; }
    assert p[i := x][..i + 1] == p[..i] + [x];
    LaterOneMore(p[..i], x, now);
    assert p[i := x][i + 1..] == p[i..][1..] == q[i + 1..];
  }

  lemma ProcessAllOneMore(c: Config, h: Hier, i: nat)
    requires Shaped(c, h) && i < |h.pending|
    ensures var (h1, kept) := ProcessAll(c, h, h.pending[..i]);
            var (h2, k) := ProcessReady(c, h1, h.pending[i]);
            ProcessAll(c, h, h.pending[..i + 1]) == (h2, if k.Some? then kept + [k.value] else kept)
  {
    assert h.pending[..i + 1][..i] == h.pending[..i];
    hide ProcessReady;
  }

  lemma ProcessOneMore(c: Config, h: Hier, i: nat, s: Hier, r: Hier)
    requires Shaped(c, h) && Shaped(c, s) && i < |h.pending| && h.pending[i].ready <= h.now
    requires ProcessedAll(c, h, i, s) && |s.pending| == |h.pending| && Processed(c, s, i, r)
    ensures ProcessedAll(c, h, i + 1, r)
  {
    hide ProcessReady, Later, ProcessAll;
    var (h1, kept) := ProcessAll(c, h, h.pending[..i]);
    ProcessAllOneMore(c, h, i);
    QueueOneMore(s.pending, h.pending, i, s.pending[i], h.now);
    PendingIsFree(c, h1, s.pending, h.pending[i]);
    ReadyFrame(c, s, s.pending[i]);
    var (s1, k) := ProcessReady(c, s, s.pending[i]);
    if k.Some? {
      QueueOneMore(s.pending, h.pending, i, k.value, h.now);
    } else {
      assert s.pending[i := s.pending[i]] == s.pending;
    }
  }

  lemma {:induction false} LaterAll(p: seq<Req>, q: seq<Req>, now: nat)
    requires forall i :: 0 <= i < |q| ==> q[i].ready > now
    ensures Later(p + q, now) == Later(p, now) + q
    decreases |q|
  {
    if q == [] {
      assert p + q == p;
    } else {
      var n := |q| - 1;
      assert (p + q)[..|p + q| - 1] == p + q[..n];
      LaterAll(p, q[..n], now);
      assert q == q[..n] + [q[n]];
    }
  }

  lemma LaterRest(c: Config, h: Hier, p: seq<Req>, k: nat)
    requires Disciplined(c, h) && k == ReadyPrefix(h.pending, h.now)
    ensures Later(p + h.pending[k..], h.now) == Later(p, h.now) + h.pending[k..]
  {
    RestWaits(c, h);
    LaterAll(p, h.pending[k..], h.now);
  }

  lemma {:induction false} PrefixIs(q: seq<Req>, now: nat, k: nat)
    requires k <= |q| && (forall i :: 0 <= i < k ==> q[i].ready <= now) && (k < |q| ==> q[k].ready > now)
    ensures k == ReadyPrefix(q, now)
  {
    if k > 0 { PrefixIs(q[1..], now, k - 1); }
  }

  lemma PendingIsFreeOnMiss(c: Config, h: Hier, p: seq<Req>, req: Req)
    requires Shaped(c, h) && Shaped(c, h.(pending := p))
    ensures ProcessMiss(c, h.(pending := p), req) == (ProcessMiss(c, h, req).0.(pending := p), ProcessMiss(c, h, req).1)
  {
    hide BlockAddress, FindEntry, FindFreeEntry, FindFreeSub, BlockRead, MemRecv;
    PendingIsFreeInMemory(c, h, p, BlockRead(c, req));
  }

  lemma PendingIsFreeInMemory(c: Config, h: Hier, p: seq<Req>, req: Req)
    requires Shaped(c, h) && Shaped(c, h.(pending := p))
    ensures MemRecv(c, h.(pending := p), req) == (MemRecv(c, h, req).0.(pending := p), MemRecv(c, h, req).1)
    ensures Shaped(c, MemRecv(c, h, req).0) && Shaped(c, MemRecv(c, h, req).0.(pending := p))
  {
    hide Mapped, RegionIndex;
  }

  lemma PendingIsFreeOnHit(c: Config, h: Hier, p: seq<Req>, i: nat, w: nat, req: Req)
    requires Shaped(c, h) && Shaped(c, h.(pending := p)) && i < c.numSets && w < c.assoc
    ensures ServeOn(c, h.(pending := p), i, w, req) == ServeOn(c, h, i, w, req).(pending := p)
  {
    hide Apply, Fits;
  }

  /** Processing a packet neither reads nor changes the queue. */
  lemma PendingIsFree(c: Config, h: Hier, p: seq<Req>, req: Req)
    requires Shaped(c, h) && Shaped(c, h.(pending := p))
    ensures ProcessReady(c, h.(pending := p), req)
            == (ProcessReady(c, h, req).0.(pending := p), ProcessReady(c, h, req).1)
  {
    hide GetLocation, FindWay, ProcessMiss, ServeOn;
    var l := GetLocation(c, req.pkt.addr);
    var w := FindWay(h.blocks[l.index], l.tag);
    if w == c.assoc {
      PendingIsFreeOnMiss(c, h, p, req);
    } else {
      PendingIsFreeOnHit(c, h, p, l.index, w, req);
    }
  }

  lemma Joined(t: seq<Req>, p: seq<Req>, q: seq<Req>)
    ensures t + p + q == t + (p + q)
  {
  }

  lemma ServeOneMore(c: Config, h: Hier, i: nat, w: nat, reqs: seq<Req>, req: Req)
    requires Shaped(c, h) && i < c.numSets && w < c.assoc
    ensures ServeAll(c, h, i, w, reqs + [req]) == ServeOn(c, ServeAll(c, h, i, w, reqs), i, w, req)
  {
    assert (reqs + [req])[..|reqs|] == reqs;
    hide ServeOn;
  }

  lemma FirstMiss(mshr: seq<Entry>, address: Word, i: nat)
    requires i <= |mshr| && (i < |mshr| ==> HoldsMiss(mshr[i], address))
    requires forall j :: 0 <= j < i ==> !HoldsMiss(mshr[j], address)
    ensures i == FindEntry(mshr, address)
  {
  }

  lemma FirstFree(mshr: seq<Entry>, i: nat)
    requires i <= |mshr| && (i < |mshr| ==> !mshr[i].valid) && forall j :: 0 <= j < i ==> mshr[j].valid
    ensures i == FindFreeEntry(mshr)
  {
  }

  lemma FirstOpen(subs: seq<SubEntry>, j: nat)
    requires j <= |subs| && (j < |subs| ==> !subs[j].valid) && forall k :: 0 <= k < j ==> subs[k].valid
    ensures j == FindFreeSub(subs)
  {
  }

  lemma FirstWay(ways: seq<Block>, tag: nat, w: nat)
    requires w <= |ways| && (w < |ways| ==> HoldsTag(ways[w], tag))
    requires forall v :: 0 <= v < w ==> !HoldsTag(ways[v], tag)
    ensures w == FindWay(ways, tag)
  {
  }

  lemma FirstInvalid(ways: seq<Block>, w: nat)
    requires w <= |ways| && (w < |ways| ==> !ways[w].valid) && forall v :: 0 <= v < w ==> ways[v].valid
    ensures w == FindInvalid(ways)
  {
  }
}
