/** The traffic between the cache and main memory: what a miss asks for, and that
    writes pay for the write-backs. */
module CacheTraffic {
  import opened Isa
  import opened Packets
  import opened Geometry
  import opened CacheSpec
  import opened CacheRuns

  // ------------------------------------------------------------------- misses

  /** A miss asks main memory for the whole block of its packet, at the time of
      the packet and under its type, but never for a write. */
  lemma MissAsksForBlock(c: Config, req: Req)
    ensures var q := BlockRead(c, req);
            && !q.pkt.isWrite && q.pkt.size == |q.pkt.data| == c.blkSize
            && q.pkt.addr % c.blkSize == 0 && q.pkt.addr <= req.pkt.addr < q.pkt.addr + c.blkSize
            && q.ready == req.ready
            && (if req.pkt.isWrite then q.pkt.ptype == LoadPacket else q.pkt.ptype == req.pkt.ptype)
  {
    var d := c.blkSize;
    DivMod(req.pkt.addr, d);
    assert Base(c, req.pkt.addr) == req.pkt.addr / d * d + 0;
    DivUnique(Base(c, req.pkt.addr), d, req.pkt.addr / d, 0);
  }

  // --------------------------------------------------------------- write-backs

  /** How many packets of a queue or of the history write. */
  function WritesIn(q: seq<Req>): nat {
    if q == [] then 0 else WritesIn(q[..|q| - 1]) + if q[|q| - 1].pkt.isWrite then 1 else 0
  }

  function Dirt(b: Block): nat {
    if b.valid && b.dirty then 1 else 0
  }

  /** How many ways of a set, and how many blocks of the cache, are dirty. */
  function DirtyIn(ways: seq<Block>): nat {
    if ways == [] then 0 else DirtyIn(ways[..|ways| - 1]) + Dirt(ways[|ways| - 1])
  }

  function DirtyBlocks(sets: seq<seq<Block>>): nat {
    if sets == [] then 0 else DirtyBlocks(sets[..|sets| - 1]) + DirtyIn(sets[|sets| - 1])
  }

  lemma {:induction false} DirtyInUpdate(ways: seq<Block>, w: nat, b: Block)
    requires w < |ways|
    ensures DirtyIn(ways[w := b]) + Dirt(ways[w]) == DirtyIn(ways) + Dirt(b)
    decreases |ways|
  {
    var n := |ways| - 1;
    if w < n {
      DirtyInUpdate(ways[..n], w, b);
      assert ways[w := b][..n] == ways[..n][w := b];
    } else {
      assert ways[w := b][..n] == ways[..n];
    }
  }

  lemma {:induction false} DirtyUpdate(sets: seq<seq<Block>>, i: nat, w: nat, b: Block)
    requires i < |sets| && w < |sets[i]|
    ensures DirtyBlocks(sets[i := sets[i][w := b]]) + Dirt(sets[i][w]) == DirtyBlocks(sets) + Dirt(b)
    decreases |sets|
  {
    hide DirtyIn, Dirt;
    var n := |sets| - 1;
    var ways := sets[i][w := b];
    if i < n {
      DirtyUpdate(sets[..n], i, w, b);
      assert sets[i := ways][..n] == sets[..n][i := ways];
    } else {
      DirtyInUpdate(sets[i], w, b);
      assert sets[i := ways][..n] == sets[..n];
    }
  }

  lemma WritesAppend(q: seq<Req>, x: Req)
    ensures WritesIn(q + [x]) == WritesIn(q) + if x.pkt.isWrite then 1 else 0
  {
    assert (q + [x])[..|q|] == q;
  }

  lemma {:induction false} WritesFront(q: seq<Req>)
    requires q != []
    ensures WritesIn(q) == WritesIn(q[1..]) + if q[0].pkt.isWrite then 1 else 0
    decreases |q|
  {
    var n := |q| - 1;
    if n > 0 {
      WritesFront(q[..n]);
      assert q[..n][1..] == q[1..][..n - 1];
    }
  }

  /** Write-backs sent or to be sent do not outnumber the writes serviced, when
      main memory has already taken `taken` of them. */
  predicate Paid(h: Hier, taken: nat) {
    taken + WritesIn(h.queue) + DirtyBlocks(h.blocks) <= WritesIn(h.trace)
  }

  lemma ServePays(c: Config, h: Hier, i: nat, w: nat, req: Req, taken: nat)
    requires Shaped(c, h) && i < c.numSets && w < c.assoc && Paid(h, taken)
    ensures Paid(ServeOn(c, h, i, w, req), taken)
  {
    if Fits(c, req.pkt) {
      var (b, p) := Apply(c, h.blocks[i][w], req.pkt);
      assert p.isWrite == req.pkt.isWrite && (!p.isWrite ==> b == h.blocks[i][w]);
      hide Apply, Fits, WritesIn, DirtyBlocks;
      DirtyUpdate(h.blocks, i, w, b);
      WritesAppend(h.trace, req.(pkt := p));
    }
  }

  lemma {:induction false} ServeAllPays(c: Config, h: Hier, i: nat, w: nat, reqs: seq<Req>, taken: nat)
    requires Shaped(c, h) && i < c.numSets && w < c.assoc && Paid(h, taken)
    ensures Paid(ServeAll(c, h, i, w, reqs), taken)
    decreases |reqs|
  {
    hide ServeOn, Paid;
    if reqs != [] {
      var n := |reqs| - 1;
      ServeAllPays(c, h, i, w, reqs[..n], taken);
      ServePays(c, ServeAll(c, h, i, w, reqs[..n]), i, w, reqs[n], taken);
    }
  }

  lemma AskedPays(c: Config, h: Hier, req: Req, taken: nat)
    requires !req.pkt.isWrite && Paid(h, taken)
    ensures Paid(MemRecv(c, h, req).0, taken)
  {
    WritesAppend(h.queue, req.(ready := req.ready + c.memDelay));
    hide WritesIn, DirtyBlocks, RegionIndex;
  }

  lemma MshrIsFree(h: Hier, mshr: seq<Entry>, taken: nat)
    ensures Paid(h.(mshr := mshr), taken) == Paid(h, taken)
  {
  }

  lemma MissPays(c: Config, h: Hier, req: Req, taken: nat)
    requires Shaped(c, h) && Paid(h, taken)
    ensures Paid(ProcessMiss(c, h, req).0, taken)
  {
    var q := BlockRead(c, req);
    assert !q.pkt.isWrite;
    AskedPays(c, h, q, taken);
    var r := ProcessMiss(c, h, req).0;
    assert r == h.(mshr := r.mshr) || r == MemRecv(c, h, q).0.(mshr := r.mshr) by {
      hide Paid, MemRecv, BlockRead, BlockAddress, FindEntry, FindFreeEntry, FindFreeSub;
    }
    hide *;
    MshrIsFree(h, r.mshr, taken);
    MshrIsFree(MemRecv(c, h, q).0, r.mshr, taken);
  }

  lemma ReadyPays(c: Config, h: Hier, req: Req, taken: nat)
    requires Shaped(c, h) && Paid(h, taken)
    ensures Paid(ProcessReady(c, h, req).0, taken)
  {
    hide GetLocation, FindWay, ProcessMiss, ServeOn, Paid;
    var l := GetLocation(c, req.pkt.addr);
    var w := FindWay(h.blocks[l.index], l.tag);
    MissPays(c, h, req, taken);
    if w < c.assoc { ServePays(c, h, l.index, w, req, taken); }
  }

  lemma {:induction false} ProcessAllPays(c: Config, h: Hier, todo: seq<Req>, taken: nat)
    requires Shaped(c, h) && Paid(h, taken)
    ensures Paid(ProcessAll(c, h, todo).0, taken)
    decreases |todo|
  {
    hide ProcessReady, Paid;
    if todo != [] {
      var n := |todo| - 1;
      ProcessAllPays(c, h, todo[..n], taken);
      ReadyPays(c, ProcessAll(c, h, todo[..n]).0, todo[n], taken);
    }
  }

  lemma WriteBackQueues(c: Config, h: Hier, i: nat, w: nat)
    requires Shaped(c, h) && i < c.numSets && w < c.assoc
    ensures var r := WriteBack(c, h, i, w);
            r.trace == h.trace && WritesIn(r.queue) <= WritesIn(h.queue) + Dirt(h.blocks[i][w])
  {
    var b := h.blocks[i][w];
    var pkt := Packet(true, WriteBackPacket, GetAddress(c, Location(b.tag, i, 0)), c.blkSize, b.data);
    hide WritesIn, RegionIndex, GetAddress;
    if b.valid && b.dirty {
      WritesAppend(h.queue, Req(0, pkt, h.now + c.memDelay));
    }
  }

  /** A write-back leaves main memory one write more and, once its block has been
      replaced by a clean one, the cache one dirty block less. */
  lemma ReplacePays(c: Config, h: Hier, i: nat, w: nat, b: Block, taken: nat)
    requires Shaped(c, h) && i < c.numSets && w < c.assoc && |b.data| == c.blkSize && !b.dirty && Paid(h, taken)
    ensures Paid(SetBlock(c, WriteBack(c, h, i, w), i, w, b), taken)
  {
    hide WritesIn, DirtyBlocks, WriteBack;
    WriteBackQueues(c, h, i, w);
    DirtyUpdate(h.blocks, i, w, b);
  }

  lemma PlacedPays(c: Config, h: Hier, pkt: Packet, choice: nat, taken: nat)
    requires Shaped(c, h) && |pkt.data| == c.blkSize && Paid(h, taken)
    ensures Paid(Placed(c, h, pkt, choice).0, taken)
  {
    hide GetLocation, FindWay, VictimWay, WriteBack, WritesIn, DirtyBlocks;
    var l := GetLocation(c, pkt.addr);
    var w := FindWay(h.blocks[l.index], l.tag);
    if w < c.assoc {
      DirtyUpdate(h.blocks, l.index, w, h.blocks[l.index][w].(data := pkt.data));
    } else {
      ReplacePays(c, h, l.index, VictimWay(h.blocks[l.index], choice), Block(true, false, l.tag, pkt.data), taken);
    }
  }

  lemma FillPays(c: Config, h: Hier, lookup: Lookup, pkt: Packet, choice: nat, taken: nat)
    requires Shaped(c, h) && |pkt.data| == c.blkSize && Paid(h, taken)
    ensures Paid(Fill(c, h, lookup, pkt, choice), taken)
  {
    hide GetLocation, Placed, ServeAll, Waiting, LookupEntry, WritesIn, DirtyBlocks;
    var (h1, w) := Placed(c, h, pkt, choice);
    var i := LookupEntry(lookup, h1.mshr, pkt.addr);
    PlacedPays(c, h, pkt, choice, taken);
    if i < |h1.mshr| { ServeAllPays(c, h1, GetLocation(c, pkt.addr).index, w, Waiting(h1.mshr[i].subs), taken); }
  }

  /** How many writes main memory takes off its queue in an event. */
  function Takes(c: Config, h: Hier, e: CacheEvent): nat {
    if e.MemoryServes? && !h.crashed && h.queue != [] && h.queue[0].ready <= h.now && h.queue[0].pkt.isWrite then 1
    else 0
  }

  lemma MemServePays(c: Config, h: Hier, lookup: Lookup, choice: nat, taken: nat)
    requires Shaped(c, h) && h.queue != [] && Paid(h, taken)
    ensures Paid(MemServe(c, h, lookup, choice), taken + if h.queue[0].pkt.isWrite then 1 else 0)
  {
    var pkt := h.queue[0].pkt;
    var h1 := h.(queue := h.queue[1..]);
    WritesFront(h.queue);
    hide Fill, Mapped, ReadBytes, WritesIn, DirtyBlocks, After;
    if !pkt.isWrite && pkt.size == c.blkSize {
      FillPays(c, h1, lookup, pkt.(data := ReadBytes(h.store, pkt.addr, pkt.size)), choice, taken);
    }
  }

  lemma EventPays(c: Config, h: Hier, lookup: Lookup, e: CacheEvent, taken: nat)
    requires Shaped(c, h) && Paid(h, taken)
    ensures Paid(NextHier(c, h, lookup, e), taken + Takes(c, h, e))
  {
    hide MemServe, ProcessAll, WritesIn, DirtyBlocks;
    match e
    case Submitted(pkt) =>
    case MemoryServes(choice) => if h.queue != [] { MemServePays(c, h, lookup, choice, taken); }
    case CacheTicks => ProcessAllPays(c, h, h.pending[..ReadyPrefix(h.pending, h.now)], taken);
    case TimePasses =>
  }

  /** How many writes main memory has taken off its queue in a run. */
  function TakenIn(c: Config, h: Hier, lookup: Lookup, es: seq<CacheEvent>): nat
    requires Shaped(c, h)
    decreases |es|
  {
    if es == [] then 0
    else
      var n := |es| - 1;
      TakenIn(c, h, lookup, es[..n]) + Takes(c, RunHier(c, h, lookup, es[..n]), es[n])
  }

  lemma {:induction false} RunPays(c: Config, h: Hier, lookup: Lookup, es: seq<CacheEvent>)
    requires Shaped(c, h) && Paid(h, 0)
    ensures Paid(RunHier(c, h, lookup, es), TakenIn(c, h, lookup, es))
    decreases |es|
  {
    hide NextHier, Paid, Takes;
    if es != [] {
      var n := |es| - 1;
      RunPays(c, h, lookup, es[..n]);
      EventPays(c, RunHier(c, h, lookup, es[..n]), lookup, es[n], TakenIn(c, h, lookup, es[..n]));
    }
  }

  lemma {:induction false} NothingDirty(sets: seq<seq<Block>>)
    requires forall i, w :: 0 <= i < |sets| && 0 <= w < |sets[i]| ==> !sets[i][w].dirty
    ensures DirtyBlocks(sets) == 0
  {
    if sets != [] {
      var n := |sets| - 1;
      NothingDirty(sets[..n]);
      NoWayDirty(sets[n]);
    }
  }

  lemma {:induction false} NoWayDirty(ways: seq<Block>)
    requires forall w :: 0 <= w < |ways| ==> !ways[w].dirty
    ensures DirtyIn(ways) == 0
  {
    if ways != [] { NoWayDirty(ways[..|ways| - 1]); }
  }

  /** Over every run from an empty cache, with either lookup: the blocks written
      to main memory, those on their way there and those that are dirty are
      together no more than the writes that the cache has serviced. In particular
      a run whose packets only read writes nothing back. */
  lemma WriteBacksArePaid(c: Config, init: Mem, lookup: Lookup, es: seq<CacheEvent>)
    ensures var h := RunHier(c, StartHier(c, init), lookup, es);
            TakenIn(c, StartHier(c, init), lookup, es) + WritesIn(h.queue) + DirtyBlocks(h.blocks) <= WritesIn(h.trace)
  {
    NothingDirty(StartHier(c, init).blocks);
    RunPays(c, StartHier(c, init), lookup, es);
    hide RunHier, TakenIn, WritesIn, DirtyBlocks;
  }
}
