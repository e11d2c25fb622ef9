/** Exactly when the source fails: an assertion, a dereference of null, an access
    outside an array. The model raises its flag there and nowhere else; that no
    run gets there is part of the results over runs. */
module Assertions {
  import opened Words
  import opened Isa
  import opened Packets
  import opened PredictorSpec
  import opened PipeSpec
  import opened IsaAgreement
  import opened Geometry
  import opened CacheSpec
  import MemoryHierarchy
  import opened BranchTraining

  // ----------------------------------------------------------------- pipeline

  /** A reply fails for a load that was a write or finds no op, for a store that
      does not find its own op, and for a prefetch. */
  lemma ReplyFailsIff(p: Pipe, pkt: Packet)
    requires !pkt.isWrite ==> |pkt.data| == pkt.size
    ensures RecvResp(p, pkt).crashed <==>
            || p.crashed
            || (pkt.ptype == LoadPacket && (pkt.isWrite || p.memOp.None?))
            || (pkt.ptype == StorePacket && (p.memOp.None? || p.memOp.value.memAddr != pkt.addr))
            || pkt.ptype == PrefetchPacket
  {
    hide LoadReply, WordOf;
  }

  lemma RedirectFailsIff(p: Pipe, dest: Word)
    ensures Redirect(p, dest).crashed <==> p.crashed || p.fetchOp.None?
  {
  }

  lemma BranchFailsIff(p: Pipe, op: Op)
    ensures DecodeBranch(p, op).0.crashed <==>
            || p.crashed
            || (p.fetchOp.None? &&
                if op.branchDest != 0 then !op.branchCond
                else Funct(op.instruction) == SUBOP_JALR && PopRas(p.bp).0 != 0)
  {
    var (x, bp) := PopRas(p.bp);
    RedirectFailsIff(p, op.branchDest);
    RedirectFailsIff(p.(bp := bp), x);
    hide Redirect, Update, PopRas, Funct;
  }

  /** Decode fails when it has an address for the op behind a J, JAL or JALR and
      nothing is in fetch. */
  lemma DecodeFailsIff(text: Text, p: Pipe, pc: Word)
    requires AtDecode(text, p, pc)
    ensures DecodeStage(p).crashed <==>
            || p.crashed
            || (p.fetchOp.None? && (NamesTarget(text, pc) || (AsksReturnStack(text, pc) && PopRas(p.bp).0 != 0)))
  {
    var op := DecodeFields(FetchedOp(text, pc));
    var s := Called(text, p, pc);
    DecodeResult(text, p, pc);
    DecodeCase(text, pc);
    assert s.fetchOp == p.fetchOp && s.crashed == p.crashed && (AsksReturnStack(text, pc) ==> s.bp == p.bp);
    hide Called, AtDecode, NamesTarget, AsksReturnStack, DecodeFields, FetchedOp, DecodeStage, DecodeBranch, PopRas,
         JumpTarget, Index;
    BranchFailsIff(s, op);
  }

  // ------------------------------------------------------------ cache, memory

  /** The access lies in one of the regions of main memory, its last byte not
      being that of the region. */
  predicate InRegion(addr: int, size: int) {
    exists i :: 0 <= i < 5 && MemoryHierarchy.Inside(REGIONS[i], addr, size)
  }

  lemma MappedIsInRegion(addr: Word, size: nat)
    ensures Mapped(addr, size) <==> InRegion(addr, size)
  {
    if RegionIndex(addr, size) != 5 {
      MemoryHierarchy.FoundContainsIff(addr, size);
      if Mapped(addr, size) { assert MemoryHierarchy.Inside(REGIONS[RegionIndex(addr, size)], addr, size); }
    }
  }

  /** Main memory would not take the write-back of the block in set `i`, way `w`. */
  predicate EvictionFails(c: Config, h: Hier, i: nat, w: nat)
    requires Shaped(c, h) && i < c.numSets && w < c.assoc
  {
    var b := h.blocks[i][w];
    && b.valid && b.dirty
    && (RegionIndex(GetAddress(c, Location(b.tag, i, 0)), c.blkSize) == 5 || |h.queue| >= 100)
  }

  lemma WriteBackFailsIff(c: Config, h: Hier, i: nat, w: nat)
    requires Shaped(c, h) && i < c.numSets && w < c.assoc
    ensures WriteBack(c, h, i, w).crashed <==> h.crashed || EvictionFails(c, h, i, w)
  {
    hide RegionIndex, GetAddress;
  }

  /** One of the packets leaves its block. */
  predicate SomeMisfit(c: Config, reqs: seq<Req>) {
    exists k :: 0 <= k < |reqs| && !Fits(c, reqs[k].pkt)
  }

  lemma {:induction false} ServeAllFailsIff(c: Config, h: Hier, i: nat, w: nat, reqs: seq<Req>)
    requires Shaped(c, h) && i < c.numSets && w < c.assoc
    ensures ServeAll(c, h, i, w, reqs).crashed <==> h.crashed || SomeMisfit(c, reqs)
    decreases |reqs|
  {
    hide Fits, Apply;
    if reqs != [] {
      var n := |reqs| - 1;
      ServeAllFailsIff(c, h, i, w, reqs[..n]);
      if k :| 0 <= k < |reqs| && !Fits(c, reqs[k].pkt) {
        if k < n { assert !Fits(c, reqs[..n][k].pkt); }
      }
    }
  }

  lemma PlacedFailsIff(c: Config, h: Hier, pkt: Packet, choice: nat)
    requires Shaped(c, h) && |pkt.data| == c.blkSize
    ensures var l := GetLocation(c, pkt.addr);
            var ways := h.blocks[l.index];
            var r := Placed(c, h, pkt, choice).0;
            && r.mshr == h.mshr
            && (r.crashed <==>
                  h.crashed || (FindWay(ways, l.tag) == c.assoc
                                && EvictionFails(c, h, l.index, VictimWay(ways, choice))))
  {
    var i := GetLocation(c, pkt.addr).index;
    WriteBackFailsIff(c, h, i, VictimWay(h.blocks[i], choice));
    hide GetLocation, FindWay, VictimWay, GetAddress, RegionIndex;
  }

  /** The reply to a block read fails when the victim is not taken, when the
      lookup finds no valid entry, or when a packet that waits in the entry leaves
      the block. */
  lemma FillFailsIff(c: Config, h: Hier, lookup: Lookup, pkt: Packet, choice: nat)
    requires Shaped(c, h) && |pkt.data| == c.blkSize
    ensures var l := GetLocation(c, pkt.addr);
            var ways := h.blocks[l.index];
            var e := LookupEntry(lookup, h.mshr, pkt.addr);
            Fill(c, h, lookup, pkt, choice).crashed <==>
            || h.crashed
            || (FindWay(ways, l.tag) == c.assoc && EvictionFails(c, h, l.index, VictimWay(ways, choice)))
            || e >= |h.mshr| || !h.mshr[e].valid
            || SomeMisfit(c, Waiting(h.mshr[e].subs))
  {
    var l := GetLocation(c, pkt.addr);
    PlacedFailsIff(c, h, pkt, choice);
    hide Placed, GetLocation, FindWay, VictimWay, EvictionFails, ServeAll, LookupEntry, Waiting, SomeMisfit;
    var (h1, w) := Placed(c, h, pkt, choice);
    var e := LookupEntry(lookup, h.mshr, pkt.addr);
    if e < |h.mshr| { ServeAllFailsIff(c, h1, l.index, w, Waiting(h.mshr[e].subs)); }
  }

  /** Main memory fails on an access that leaves the regions, on a write that is
      no write-back, on a read that is not of one block, and where the reply to it
      fails. */
  lemma ServiceFailsIff(c: Config, h: Hier, lookup: Lookup, choice: nat)
    requires Shaped(c, h) && h.queue != []
    ensures var pkt := h.queue[0].pkt;
            var reply := pkt.(data := ReadBytes(h.store, pkt.addr, pkt.size));
            MemServe(c, h, lookup, choice).crashed <==>
            || !InRegion(pkt.addr, pkt.size)
            || (if pkt.isWrite then h.crashed || pkt.ptype != WriteBackPacket
                else pkt.size != c.blkSize || Fill(c, h.(queue := h.queue[1..]), lookup, reply, choice).crashed)
  {
    var pkt := h.queue[0].pkt;
    MappedIsInRegion(pkt.addr, pkt.size);
    hide Mapped, InRegion, Fill, ReadBytes, After;
    if pkt.isWrite {
      WriteServed(c, h, lookup, choice);
    } else {
      ReadServed(c, h, lookup, choice);
    }
  }

  lemma WriteServed(c: Config, h: Hier, lookup: Lookup, choice: nat)
    requires Shaped(c, h) && h.queue != [] && h.queue[0].pkt.isWrite
    ensures var pkt := h.queue[0].pkt;
            MemServe(c, h, lookup, choice).crashed <==>
            h.crashed || !Mapped(pkt.addr, pkt.size) || pkt.ptype != WriteBackPacket
  {
    hide Mapped, After;
  }

  lemma ReadServed(c: Config, h: Hier, lookup: Lookup, choice: nat)
    requires Shaped(c, h) && h.queue != [] && !h.queue[0].pkt.isWrite
    ensures var pkt := h.queue[0].pkt;
            var reply := pkt.(data := ReadBytes(h.store, pkt.addr, pkt.size));
            MemServe(c, h, lookup, choice).crashed <==>
            || !Mapped(pkt.addr, pkt.size) || pkt.size != c.blkSize
            || Fill(c, h.(queue := h.queue[1..]), lookup, reply, choice).crashed
  {
    hide Mapped, Fill, ReadBytes;
  }

  /** A miss fails when no region is found for its block read, and then only if
      that read has to be made: the packet's block is neither resident nor on its
      way, and there is room for it in the miss registers. */
  lemma MissFailsIff(c: Config, h: Hier, req: Req)
    requires Shaped(c, h)
    ensures var q := BlockRead(c, req);
            var a := BlockAddress(c, req.pkt.addr);
            var found := FindEntry(h.mshr, a);
            var i := if found < |h.mshr| then found else FindFreeEntry(h.mshr);
            ProcessMiss(c, h, req).0.crashed <==>
            || h.crashed
            || (i < |h.mshr| && FindFreeSub(h.mshr[i].subs) < c.subentries && !h.mshr[i].issued
                && RegionIndex(q.pkt.addr, q.pkt.size) == 5)
  {
    hide RegionIndex, BlockRead, BlockAddress, FindEntry, FindFreeEntry, FindFreeSub;
  }

  /** A hit fails when its packet leaves the block. */
  lemma ReadyFailsIff(c: Config, h: Hier, req: Req)
    requires Shaped(c, h)
    ensures var l := GetLocation(c, req.pkt.addr);
            ProcessReady(c, h, req).0.crashed <==>
              if FindWay(h.blocks[l.index], l.tag) == c.assoc then ProcessMiss(c, h, req).0.crashed
              else h.crashed || !Fits(c, req.pkt)
  {
    hide GetLocation, FindWay, ProcessMiss, Fits, Apply;
  }
}
