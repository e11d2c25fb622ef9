/** The cache as the pipeline drives it: one data request at a time. Then the
    entry lookup of the source, which stops at the first entry, is right. */
module CacheL1D {
  import opened Words
  import opened Isa
  import opened Packets
  import opened Geometry
  import opened CacheSpec
  import opened CacheInvariant
  import opened CacheProofs
  import opened CacheSteps
  import opened CacheFrames
  import opened CacheRuns

  // ---------------------------------------------------------- the entry lookup

  /** No region holds address 0. */
  lemma ZeroHasNoRegion(c: Config, b: Word)
    requires RegionOk(c, b)
    ensures b != 0
  {
  }

  lemma FrontIsMiss(c: Config, h: Hier, init: Mem)
    requires HierOk(c, h, init) && h.queue != [] && !h.queue[0].pkt.isWrite
    ensures var b := h.queue[0].pkt.addr;
            && b != 0 && FindEntry(h.mshr, b) < |h.mshr| && h.queue[0].pkt.size == c.blkSize
            && (HoldsMiss(h.mshr[0], b) <==> FindEntry(h.mshr, b) == 0)
            && Mapped(b, h.queue[0].pkt.size)
  {
    hide CleanOk, BlocksOk, Coherent, Legal, RegionOk, IsBase, Resident, SubOk, HasRead, Mapped;
    FrontIsMapped(c, h, 0);
    ReadIsMiss(c, h);
    ZeroHasNoRegion(c, h.queue[0].pkt.addr);
  }

  /** The lookup as written and the comparing lookup service an answered block
      alike exactly when the answered block's entry is the first one. */
  lemma LookupAgreesIff(c: Config, h: Hier, choice: nat, init: Mem)
    requires HierOk(c, h, init) && h.queue != [] && !h.queue[0].pkt.isWrite && Shaped(c, h)
    ensures MemServe(c, h, AsWritten, choice) == MemServe(c, h, Comparing, choice)
       <==> HoldsMiss(h.mshr[0], h.queue[0].pkt.addr)
  {
    FrontIsMiss(c, h, init);
    MemServeKeeps(c, h, choice, init);
    LookupDiffers(c, h, choice);
  }

  lemma LookupDiffers(c: Config, h: Hier, choice: nat)
    requires Shaped(c, h) && h.queue != [] && !h.queue[0].pkt.isWrite
    requires var b := h.queue[0].pkt.addr;
             && b != 0 && FindEntry(h.mshr, b) < |h.mshr| && h.queue[0].pkt.size == c.blkSize
             && (HoldsMiss(h.mshr[0], b) <==> FindEntry(h.mshr, b) == 0)
             && !MemServe(c, h, Comparing, choice).crashed
    ensures MemServe(c, h, AsWritten, choice) == MemServe(c, h, Comparing, choice)
       <==> HoldsMiss(h.mshr[0], h.queue[0].pkt.addr)
  {
    hide GetLocation, Placed, ServeAll, ReadBytes;
    var pkt := h.queue[0].pkt;
    var reply := pkt.(data := ReadBytes(h.store, pkt.addr, pkt.size));
    var h1 := h.(queue := h.queue[1..]);
    var (h2, w) := Placed(c, h1, reply, choice);
    PlacedFrame(c, h1, reply, choice);
    var i := FindEntry(h.mshr, pkt.addr);
    var l := GetLocation(c, pkt.addr);
    if i > 0 {
      ServeAllFrame(c, h2, l.index, w, Waiting(h.mshr[0].subs));
      ServeAllFrame(c, h2, l.index, w, Waiting(h.mshr[i].subs));
      var x := MemServe(c, h, AsWritten, choice);
      var y := MemServe(c, h, Comparing, choice);
      assert !y.mshr[i].valid;
      if h.mshr[0].valid { assert x.mshr[i].valid; } else { assert x.crashed; }
    }
  }

  /** Answering the block of the first entry frees that entry. */
  lemma FirstEntryFreed(c: Config, h: Hier, choice: nat)
    requires Shaped(c, h) && h.queue != [] && !h.queue[0].pkt.isWrite && h.queue[0].pkt.size == c.blkSize
    requires HoldsMiss(h.mshr[0], h.queue[0].pkt.addr) && Mapped(h.queue[0].pkt.addr, c.blkSize)
    ensures var r := MemServe(c, h, Comparing, choice);
            && r.mshr != [] && !r.mshr[0].valid
            && |h.queue| - 1 <= |r.queue| && r.queue[..|h.queue| - 1] == h.queue[1..]
  {
    hide GetLocation, Placed, ServeAll, ReadBytes, Waiting;
    var pkt := h.queue[0].pkt;
    var reply := pkt.(data := ReadBytes(h.store, pkt.addr, pkt.size));
    var h1 := h.(queue := h.queue[1..]);
    PlacedFrame(c, h1, reply, choice);
    var (h2, w) := Placed(c, h1, reply, choice);
    assert FindEntry(h.mshr, pkt.addr) == 0;
    var l := GetLocation(c, pkt.addr);
    ServeAllFrame(c, h2, l.index, w, Waiting(h2.mshr[0].subs));
  }

  lemma FreeEntryFails(c: Config, h: Hier, choice: nat)
    requires Shaped(c, h) && h.queue != [] && !h.queue[0].pkt.isWrite && h.queue[0].pkt.size == c.blkSize
    requires h.queue[0].pkt.addr != 0 && !h.mshr[0].valid
    ensures MemServe(c, h, AsWritten, choice).crashed
  {
    hide GetLocation, Placed, ReadBytes;
    var pkt := h.queue[0].pkt;
    PlacedFrame(c, h.(queue := h.queue[1..]), pkt.(data := ReadBytes(h.store, pkt.addr, pkt.size)), choice);
  }

  /** With two misses outstanding the lookup as written fails for certain: after
      the block of the first entry has been answered, the next answered block
      finds that entry free, and the assertion stops the simulator. */
  lemma SecondMissFails(c: Config, h: Hier, choice1: nat, choice2: nat, init: Mem)
    requires HierOk(c, h, init) && Shaped(c, h)
    requires |h.queue| >= 2 && !h.queue[0].pkt.isWrite && !h.queue[1].pkt.isWrite
    requires HoldsMiss(h.mshr[0], h.queue[0].pkt.addr)
    ensures var r := MemServe(c, h, AsWritten, choice1);
            !r.crashed && r.queue != [] && MemServe(c, r, AsWritten, choice2).crashed
  {
    var r := MemServe(c, h, Comparing, choice1);
    LookupAgreesIff(c, h, choice1, init);
    FrontIsMiss(c, h, init);
    assert QueueItemOk(c, h.mshr, h.queue[1]);
    assert h.queue[1].pkt.addr != 0 by { ZeroHasNoRegion(c, h.queue[1].pkt.addr); }
    MemServeKeeps(c, h, choice1, init);
    FirstEntryFreed(c, h, choice1);
    assert r.queue[0] == h.queue[1] by { assert r.queue[..|h.queue| - 1][0] == h.queue[1..][0]; }
    hide MemServe, HierOk;
    FreeEntryFails(c, r, choice2);
  }

  // ------------------------------------------------------ one request at a time

  /** The packets accepted and not yet serviced. */
  function Outstanding(h: Hier): seq<Req>
    requires h.mshr != []
  {
    if h.mshr[0].valid then Waiting(h.mshr[0].subs) else h.pending
  }

  /** At most one packet is outstanding; if it is a miss it is in the first
      entry, so main memory has at most one read, behind at most one write. */
  predicate SingleOk(h: Hier) {
    && h.mshr != []
    && (forall i :: 0 < i < |h.mshr| ==> !h.mshr[i].valid)
    && |Outstanding(h)| <= 1
    && (h.mshr[0].valid ==> h.pending == [] && Outstanding(h) != [])
    && |h.queue| <= 2
    && (|h.queue| == 2 ==> h.queue[0].pkt.isWrite && !h.queue[1].pkt.isWrite)
  }

  /** A read in the queue belongs to the first entry. */
  lemma ReadIsFirst(c: Config, h: Hier, init: Mem, k: nat)
    requires HierOk(c, h, init) && SingleOk(h) && k < |h.queue| && !h.queue[k].pkt.isWrite
    ensures HoldsMiss(h.mshr[0], h.queue[k].pkt.addr)
  {
    hide CleanOk, BlocksOk, Coherent, Legal, RegionOk, IsBase, MshrOk, Waiting;
    assert QueueItemOk(c, h.mshr, h.queue[k]);
    var i :| 0 <= i < |h.mshr| && HoldsMiss(h.mshr[i], h.queue[k].pkt.addr);
    assert i == 0;
  }

  /** What a step may do to the outstanding packet: nothing, or service it. */
  predicate Progress(h: Hier, r: Hier)
    requires h.mshr != [] && r.mshr != []
  {
    || (r.trace == h.trace && |Outstanding(r)| == |Outstanding(h)|
        && (forall k :: 0 <= k < |Outstanding(h)| ==> Outstanding(r)[k].pkt == Outstanding(h)[k].pkt))
    || (|Outstanding(h)| == 1 && Outstanding(r) == [] && |r.trace| == |h.trace| + 1 && r.trace[..|h.trace|] == h.trace
        && ServedAs(Outstanding(h)[0], r.trace[|h.trace|]))
  }

  // -------------------------------------------------------------------- misses

  lemma {:induction false} OneWaiting(subs: seq<SubEntry>, req: Req)
    requires subs != [] && NoneValid(subs)
    ensures Waiting(subs[0 := SubEntry(true, Some(req))]) == [req]
    decreases |subs|
  {
    var n := |subs| - 1;
    var t := subs[0 := SubEntry(true, Some(req))];
    if n == 0 {
      assert t[..0] == [];
    } else {
      assert t[..n] == subs[..n][0 := SubEntry(true, Some(req))];
      OneWaiting(subs[..n], req);
    }
  }

  /** A miss on a block without an entry, with a free entry and room in the queue
      of main memory. */
  lemma FirstMisses(c: Config, h: Hier, req: Req, i: nat)
    requires ValidConfig(c) && Shaped(c, h) && PacketOk(c, req.pkt) && i < |h.mshr| && |h.queue| < CAPACITY
    requires FindEntry(h.mshr, Base(c, req.pkt.addr)) == |h.mshr| && FindFreeEntry(h.mshr) == i
    requires NoneValid(h.mshr[i].subs) && !h.mshr[i].issued && !Resident(c, h, Base(c, req.pkt.addr))
    ensures var (r, k) := ProcessReady(c, h, req);
            var read := BlockRead(c, req);
            && k.None?
            && r == h.(queue := h.queue + [read.(ready := read.ready + c.memDelay)],
                       mshr := h.mshr[i := CacheSteps.Taken(h.mshr[i], Base(c, req.pkt.addr), req)])
  {
    var b := Base(c, req.pkt.addr);
    assert BlockAddress(c, req.pkt.addr) == b by { BaseIsBase(c, req.pkt.addr); }
    MissTakesIs(c, h, req, b);
    assert RegionOk(c, b);
    assert MemRecv(c, h, BlockRead(c, req)).1 by { hide GetLocation, Base; }
    ReadAccepted(c, h, req);
    MissIsProcess(c, h, req);
    hide *;
  }

  /** With no miss outstanding, a miss takes the first entry, or is refused and
      leaves every entry free. */
  lemma SingleMiss(c: Config, h: Hier, req: Req, init: Mem)
    requires HierOk(c, h, init) && SingleOk(h) && !h.mshr[0].valid && Shaped(c, h)
    ensures var (r, ok) := ProcessMiss(c, h, req);
            && r.mshr != [] && (forall i :: 0 < i < |r.mshr| ==> !r.mshr[i].valid)
            && r.mshr[0].valid == ok && (ok ==> Waiting(r.mshr[0].subs) == [req])
            && r.trace == h.trace && r.pending == h.pending && |r.queue| <= 2
            && (|r.queue| == 2 ==> r.queue[0].pkt.isWrite && !r.queue[1].pkt.isWrite)
  {
    assert EntryOk(c, h, h.mshr[0]);
    NoReadQueued(c, h, init);
    hide CacheOk, Conserved, Disciplined, GetLocation, BlockAddress, Waiting, RegionIndex, Base;
    var b := BlockAddress(c, req.pkt.addr);
    assert FindEntry(h.mshr, b) == |h.mshr|;
    assert FindFreeEntry(h.mshr) == 0;
    MissTakesIs(c, h, req, b);
    OneWaiting(h.mshr[0].subs, req);
  }

  lemma NoReadQueued(c: Config, h: Hier, init: Mem)
    requires HierOk(c, h, init) && SingleOk(h) && !h.mshr[0].valid
    ensures |h.queue| <= 1 && forall k :: 0 <= k < |h.queue| ==> h.queue[k].pkt.isWrite
  {
    hide HierOk, Waiting;
    forall k | 0 <= k < |h.queue| ensures h.queue[k].pkt.isWrite {
      if !h.queue[k].pkt.isWrite { ReadIsFirst(c, h, init, k); }
    }
  }

  /** A tick of the cache with one packet at most. */
  lemma SingleTick(c: Config, h: Hier, init: Mem)
    requires HierOk(c, h, init) && SingleOk(h) && Shaped(c, h)
    ensures var r := CacheTick(c, h);
            r.mshr != [] && SingleOk(r) && Progress(h, r)
  {
    hide HierOk, GetLocation, ProcessMiss, ServeOn, Waiting;
    var k := ReadyPrefix(h.pending, h.now);
    if k == 0 {
      assert h.pending[..0] == [];
      assert CacheTick(c, h) == h.(pending := [] + h.pending);
    } else {
      var req := h.pending[0];
      assert h.pending[..1] == [req] && h.pending[1..] == [] && k == 1;
      ProcessOne(c, h, req);
      var (h1, kept) := ProcessReady(c, h, req);
      assert PacketOk(c, req.pkt) by { PendingGood(c, h, init); }
      SingleMiss(c, h, req, init);
      var l := GetLocation(c, req.pkt.addr);
      var w := FindWay(h.blocks[l.index], l.tag);
      if w < c.assoc { ServeOnTrace(c, h, l.index, w, req); }
    }
  }

  lemma ProcessOne(c: Config, h: Hier, req: Req)
    requires Shaped(c, h)
    ensures var (h1, k) := ProcessReady(c, h, req);
            ProcessAll(c, h, [req]) == (h1, if k.Some? then [k.value] else [])
  {
    hide ProcessReady;
    assert [req][..0] == [];
    var (h1, k) := ProcessReady(c, h, req);
    var none: seq<Req> := [];
    assert ProcessAll(c, h, [req][..0]) == (h, none);
    if k.Some? { assert none + [k.value] == [k.value]; }
  }

  lemma PendingGood(c: Config, h: Hier, init: Mem)
    requires HierOk(c, h, init) && h.pending != []
    ensures PacketOk(c, h.pending[0].pkt)
  {
    hide PacketOk;
  }

  // ------------------------------------------------------------- memory serves

  lemma {:induction false} ServeOne(c: Config, h: Hier, i: nat, w: nat, req: Req)
    requires Shaped(c, h) && i < c.numSets && w < c.assoc
    ensures ServeAll(c, h, i, w, [req]) == ServeOn(c, h, i, w, req)
  {
    assert [req][..0] == [];
  }

  /** What a fill does when one packet waits in the first entry. */
  lemma FillShape(c: Config, h: Hier, choice: nat, req: Req)
    requires Shaped(c, h) && h.queue != [] && !h.queue[0].pkt.isWrite && h.queue[1..] == []
    requires h.queue[0].pkt.size == c.blkSize && FindEntry(h.mshr, h.queue[0].pkt.addr) == 0
    requires Mapped(h.queue[0].pkt.addr, c.blkSize)
    requires h.mshr[0].valid && Waiting(h.mshr[0].subs) == [req] && Fits(c, req.pkt)
    ensures var r := MemServe(c, h, Comparing, choice);
            && r.mshr == h.mshr[0 := Entry(false, 0, false, EmptySubs(c.subentries))] && r.pending == h.pending
            && |r.trace| == |h.trace| + 1 && r.trace[..|h.trace|] == h.trace && ServedAs(req, r.trace[|h.trace|])
            && |r.queue| <= 1
  {
    hide GetLocation, ServeOn, Waiting, ServeAll, ReadBytes, RegionIndex, Placed, FindEntry, Fits;
    var pkt := h.queue[0].pkt;
    var reply := pkt.(data := ReadBytes(h.store, pkt.addr, pkt.size));
    var h1 := h.(queue := h.queue[1..]);
    var (h2, w) := Placed(c, h1, reply, choice);
    PlacedFrame(c, h1, reply, choice);
    var l := GetLocation(c, pkt.addr);
    ServeOne(c, h2, l.index, w, req);
    ServeOnTrace(c, h2, l.index, w, req);
  }

  /** A fill in the single-request regime services the one waiting packet. */
  lemma SingleFill(c: Config, h: Hier, choice: nat, init: Mem)
    requires HierOk(c, h, init) && SingleOk(h) && Shaped(c, h) && h.queue != [] && !h.queue[0].pkt.isWrite
    ensures var r := MemServe(c, h, Comparing, choice);
            r.mshr != [] && SingleOk(r) && Progress(h, r)
  {
    hide HierOk, Waiting, MemServe;
    FrontIsMiss(c, h, init);
    ReadIsFirst(c, h, init, 0);
    var req := Waiting(h.mshr[0].subs)[0];
    assert Waiting(h.mshr[0].subs) == [req];
    WaitingFits(c, h, init);
    FillShape(c, h, choice, req);
  }

  lemma WaitingFits(c: Config, h: Hier, init: Mem)
    requires HierOk(c, h, init) && h.mshr != [] && h.mshr[0].valid && Waiting(h.mshr[0].subs) != []
    ensures Fits(c, Waiting(h.mshr[0].subs)[0].pkt)
  {
    assert EntryOk(c, h, h.mshr[0]);
    WaitingOf(c, h.mshr[0].address, h.mshr[0].subs);
    hide HierOk, Fits;
  }

  /** One event of a client that waits for its reply: the lookup as written
      does what the comparing one does, the regime is kept, and the packet
      outstanding stays as it is or is serviced. */
  lemma SingleStep(c: Config, h: Hier, e: CacheEvent, init: Mem)
    requires HierOk(c, h, init) && SingleOk(h) && Shaped(c, h) && EventOk(c, e)
    requires e.Submitted? ==> Outstanding(h) == []
    ensures var r := NextHier(c, h, AsWritten, e);
            && r == NextHier(c, h, Comparing, e) && HierOk(c, r, init) && r.mshr != [] && SingleOk(r)
            && (!e.Submitted? ==> Progress(h, r))
            && (e.Submitted? ==> r.trace == h.trace && |Outstanding(r)| == 1 && Outstanding(r)[0].pkt == e.pkt)
  {
    hide HierOk, MemServe, CacheTick, Waiting;
    assert !h.crashed by { NotCrashed(c, h, init); }
    EventKeepsHier(c, h, e, init);
    match e
    case Submitted(pkt) => SingleSubmit(c, h, pkt);
    case CacheTicks => SingleTick(c, h, init);
    case TimePasses =>
    case MemoryServes(choice) =>
      if h.queue != [] && h.queue[0].ready <= h.now {
        if h.queue[0].pkt.isWrite {
          SingleWrite(c, h, choice);
        } else {
          SingleFill(c, h, choice, init);
          ReadIsFirst(c, h, init, 0);
          LookupAgreesIff(c, h, choice, init);
        }
      }
  }

  lemma NotCrashed(c: Config, h: Hier, init: Mem)
    requires HierOk(c, h, init)
    ensures !h.crashed
  {
  }

  lemma SingleSubmit(c: Config, h: Hier, pkt: Packet)
    requires SingleOk(h) && Outstanding(h) == []
    ensures var (r, ok) := Submit(c, h, pkt);
            ok && SingleOk(r) && r.trace == h.trace && |Outstanding(r)| == 1 && Outstanding(r)[0].pkt == pkt
  {
    hide Waiting;
  }

  lemma SingleWrite(c: Config, h: Hier, choice: nat)
    requires SingleOk(h) && Shaped(c, h) && h.queue != [] && h.queue[0].pkt.isWrite
    ensures var r := MemServe(c, h, Comparing, choice);
            && r == MemServe(c, h, AsWritten, choice) && r.mshr != [] && SingleOk(r) && Progress(h, r)
  {
    hide Waiting, After, WriteBytes;
  }
}
