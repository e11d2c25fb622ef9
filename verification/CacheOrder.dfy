/** The cache answers the packets of each block in the order in which it
    accepted them, however many are outstanding. Packets of different blocks may
    overtake one another. */
module CacheOrder {
  import opened Words
  import opened Isa
  import opened Packets
  import opened Geometry
  import opened CacheSpec
  import opened CacheInvariant
  import opened CacheProofs
  import opened CacheFrames
  import opened CacheSteps
  import opened CacheRuns

  // ---------------------------------------------------------- lines of packets

  /** A packet without what changes on its way: the data of a read and the ready
      time. */
  function Stripped(q: Req): Req {
    Req(q.id, if q.pkt.isWrite then q.pkt else q.pkt.(data := []), 0)
  }

  predicate OnBlock(c: Config, q: Req, b: Word) {
    Base(c, q.pkt.addr) == b
  }

  /** The packets that access block `b`, in their order. */
  function OfBlock(c: Config, q: seq<Req>, b: Word): seq<Req> {
    if q == [] then []
    else OfBlock(c, q[..|q| - 1], b) + if OnBlock(c, q[|q| - 1], b) then [Stripped(q[|q| - 1])] else []
  }

  /** The packets that wait for block `b` in the miss registers. */
  function WaitingFor(mshr: seq<Entry>, b: Word): seq<Req> {
    var i := FindEntry(mshr, b);
    if i < |mshr| then Waiting(mshr[i].subs) else []
  }

  /** The packets of block `b`: those serviced, then those that wait for the
      block, then those of `queue`. */
  function Line(c: Config, h: Hier, queue: seq<Req>, b: Word): seq<Req> {
    OfBlock(c, h.trace, b) + OfBlock(c, WaitingFor(h.mshr, b), b) + OfBlock(c, queue, b)
  }

  lemma {:induction false} OfBlockAppend(c: Config, p: seq<Req>, q: seq<Req>, b: Word)
    ensures OfBlock(c, p + q, b) == OfBlock(c, p, b) + OfBlock(c, q, b)
    decreases |q|
  {
    hide OnBlock, Stripped;
    if q == [] {
      assert p + q == p;
    } else {
      var n := |q| - 1;
      assert (p + q)[..|p| + n] == p + q[..n];
      OfBlockAppend(c, p, q[..n], b);
    }
  }

  lemma OfBlockOne(c: Config, q: Req, b: Word)
    ensures OfBlock(c, [q], b) == if OnBlock(c, q, b) then [Stripped(q)] else []
  {
    hide OnBlock, Stripped;
    assert [q][..0] == [];
  }

  lemma {:induction false} NoneOfBlock(c: Config, q: seq<Req>, b: Word)
    requires forall k :: 0 <= k < |q| ==> !OnBlock(c, q[k], b)
    ensures OfBlock(c, q, b) == []
  {
    hide OnBlock, Stripped;
    if q != [] { NoneOfBlock(c, q[..|q| - 1], b); }
  }

  /** Servicing packets leaves their line as it is. */
  lemma {:induction false} OfBlockServed(c: Config, p: seq<Req>, q: seq<Req>, b: Word)
    requires |p| == |q| && forall k :: 0 <= k < |p| ==> ServedAs(p[k], q[k])
    ensures OfBlock(c, q, b) == OfBlock(c, p, b)
  {
    hide ServedAs, OnBlock, Stripped;
    if p != [] {
      var n := |p| - 1;
      OfBlockServed(c, p[..n], q[..n], b);
      ServedSame(c, p[n], q[n], b);
    }
  }

  lemma ServedSame(c: Config, p: Req, q: Req, b: Word)
    requires ServedAs(p, q)
    ensures Stripped(p) == Stripped(q) && OnBlock(c, p, b) == OnBlock(c, q, b)
  {
    hide Base;
  }

  lemma LineServed(c: Config, trace: seq<Req>, reqs: seq<Req>, t: seq<Req>, b: Word)
    requires ServesNext(trace, reqs, t)
    ensures OfBlock(c, t, b) == OfBlock(c, trace, b) + OfBlock(c, reqs, b)
  {
    hide ServedAs, OfBlock;
    var last := t[|trace|..];
    assert t == trace + last;
    OfBlockAppend(c, trace, last, b);
    OfBlockServed(c, reqs, last, b);
  }

  // ------------------------------------------------------------ miss registers

  /** The sub-entries in use are the first ones. */
  predicate FilledInOrder(subs: seq<SubEntry>) {
    forall j, k :: 0 <= j < k < |subs| && subs[k].valid ==> subs[j].valid
  }

  predicate MissesInOrder(mshr: seq<Entry>) {
    forall i :: 0 <= i < |mshr| ==> FilledInOrder(mshr[i].subs)
  }

  predicate AllValid(subs: seq<SubEntry>) {
    forall j :: 0 <= j < |subs| ==> subs[j].valid
  }

  /** A packet of block `b` can be neither serviced nor moved to the miss
      registers now. */
  predicate Blocked(c: Config, h: Hier, b: Word)
    requires Shaped(c, h)
  {
    && !Resident(c, h, b)
    && var i := FindEntry(h.mshr, b);
       if i < |h.mshr| then AllValid(h.mshr[i].subs)
       else FindFreeEntry(h.mshr) == |h.mshr| || |h.queue| >= CAPACITY
  }

  lemma {:induction false} WaitingAppend(subs: seq<SubEntry>, j: nat, req: Req)
    requires j < |subs| && FilledInOrder(subs) && !subs[j].valid && forall k :: 0 <= k < j ==> subs[k].valid
    ensures var t := subs[j := SubEntry(true, Some(req))];
            Waiting(t) == Waiting(subs) + [req] && FilledInOrder(t)
    decreases |subs|
  {
    var n := |subs| - 1;
    var t := subs[j := SubEntry(true, Some(req))];
    if j < n {
      assert t[..n] == subs[..n][j := SubEntry(true, Some(req))];
      assert !subs[n].valid;
      WaitingAppend(subs[..n], j, req);
    } else {
      assert t[..n] == subs[..n];
    }
  }

  /** An update that keeps what an entry stands for keeps every search. */
  lemma SameFind(mshr: seq<Entry>, i: nat, e: Entry, x: Word)
    requires i < |mshr| && HoldsMiss(e, x) == HoldsMiss(mshr[i], x)
    ensures FindEntry(mshr[i := e], x) == FindEntry(mshr, x)
  {
    hide HoldsMiss, FindEntry;
    var t := mshr[i := e];
    assert forall k :: 0 <= k < |t| ==> HoldsMiss(t[k], x) == HoldsMiss(mshr[k], x);
    if FindEntry(t, x) < FindEntry(mshr, x) {} else {}
  }

  lemma SameFree(mshr: seq<Entry>, i: nat, e: Entry)
    requires i < |mshr| && e.valid == mshr[i].valid
    ensures FindFreeEntry(mshr[i := e]) == FindFreeEntry(mshr)
  {
    hide FindFreeEntry;
    var t := mshr[i := e];
    assert forall k :: 0 <= k < |t| ==> t[k].valid == mshr[k].valid;
    if FindFreeEntry(t) < FindFreeEntry(mshr) {} else {}
  }

  /** What a miss does to the packets that wait, and to the blocks that are
      blocked. */
  predicate MissStep(c: Config, h: Hier, req: Req, b: Word, r: Hier, ok: bool)
    requires Shaped(c, h) && Shaped(c, r)
  {
    && ok == !Blocked(c, h, b)
    && r.trace == h.trace && MissesInOrder(r.mshr)
    && (forall x: Word :: WaitingFor(r.mshr, x) == WaitingFor(h.mshr, x) + if ok && x == b then [req] else [])
    && (forall x: Word :: Blocked(c, h, x) ==> Blocked(c, r, x))
  }

  lemma ResidentSame(c: Config, h: Hier, r: Hier, x: Word)
    requires Shaped(c, h) && Shaped(c, r) && r.blocks == h.blocks
    ensures Resident(c, r, x) == Resident(c, h, x)
  {
  }

  /** A packet joins the entry of its block, or finds it full. */
  lemma JoinOrder(c: Config, h: Hier, req: Req, b: Word)
    requires Shaped(c, h) && MissesInOrder(h.mshr) && FindEntry(h.mshr, b) < |h.mshr| && !Resident(c, h, b)
    requires BlockAddress(c, req.pkt.addr) == b && h.mshr[FindEntry(h.mshr, b)].issued
    ensures var (r, ok) := ProcessMiss(c, h, req);
            MissStep(c, h, req, b, r, ok)
  {
    hide BlockAddress, Waiting, MemRecv, BlockRead, FindEntry, FindFreeEntry, Resident, FilledInOrder;
    var i := FindEntry(h.mshr, b);
    var e := h.mshr[i];
    var j := FindFreeSub(e.subs);
    assert e.(address := b) == e;
    if j < |e.subs| {
      var t := e.(subs := e.subs[j := SubEntry(true, Some(req))]);
      var r := SetEntry(c, h, i, t);
      assert FilledInOrder(e.subs);
      WaitingAppend(e.subs, j, req);
      SameFree(h.mshr, i, t);
      forall x: Word ensures FindEntry(r.mshr, x) == FindEntry(h.mshr, x) { SameFind(h.mshr, i, t, x); }
      JoinedWaits(h.mshr, i, t, b, req);
      forall x: Word | Blocked(c, h, x) ensures Blocked(c, r, x) { ResidentSame(c, h, r, x); }
    } else {
      assert h.mshr[i := e] == h.mshr;
      assert ProcessMiss(c, h, req) == (h, false);
    }
  }

  lemma JoinedWaits(mshr: seq<Entry>, i: nat, t: Entry, b: Word, req: Req)
    requires i < |mshr| && FindEntry(mshr, b) == i && t == mshr[i].(subs := t.subs)
    requires Waiting(t.subs) == Waiting(mshr[i].subs) + [req]
    ensures forall x: Word :: WaitingFor(mshr[i := t], x) == WaitingFor(mshr, x) + if x == b then [req] else []
  {
    hide Waiting, FindEntry;
    forall x: Word ensures WaitingFor(mshr[i := t], x) == WaitingFor(mshr, x) + if x == b then [req] else [] {
      SameFind(mshr, i, t, x);
    }
  }

  /** A free entry is taken for block `b`. */
  lemma TakenWaits(mshr: seq<Entry>, i: nat, t: Entry, b: Word, req: Req)
    requires i < |mshr| && !mshr[i].valid && HoldsMiss(t, b) && FindEntry(mshr, b) == |mshr| && Waiting(t.subs) == [req]
    ensures FindEntry(mshr[i := t], b) == i
    ensures forall x: Word :: x != b ==> FindEntry(mshr[i := t], x) == FindEntry(mshr, x)
    ensures forall x: Word :: WaitingFor(mshr[i := t], x) == WaitingFor(mshr, x) + if x == b then [req] else []
  {
    hide Waiting, FindEntry;
    var r := mshr[i := t];
    assert HoldsMiss(r[i], b);
    forall x: Word
      ensures x != b ==> FindEntry(r, x) == FindEntry(mshr, x)
      ensures WaitingFor(r, x) == WaitingFor(mshr, x) + if x == b then [req] else []
    {
      if x != b { SameFind(mshr, i, t, x); }
    }
  }

  lemma FirstWaits(subs: seq<SubEntry>, req: Req)
    requires subs != [] && NoneValid(subs)
    ensures var t := subs[0 := SubEntry(true, Some(req))];
            Waiting(t) == [req] && FilledInOrder(t)
  {
    NothingWaits(subs);
    WaitingAppend(subs, 0, req);
  }

  /** A packet of a block without an entry takes a free one, or is refused. */
  lemma TakeOrder(c: Config, h: Hier, req: Req, b: Word)
    requires ValidConfig(c) && Shaped(c, h) && MshrOk(c, h) && MissesInOrder(h.mshr) && FindEntry(h.mshr, b) == |h.mshr|
    requires BlockAddress(c, req.pkt.addr) == b && b == Base(c, req.pkt.addr) && PacketOk(c, req.pkt)
             && !Resident(c, h, b)
    ensures var (r, ok) := ProcessMiss(c, h, req);
            MissStep(c, h, req, b, r, ok)
  {
    MissTakesIs(c, h, req, b);
    ReadAccepted(c, h, req);
    ReadRefused(c, h, req);
    var i := FindFreeEntry(h.mshr);
    if i < |h.mshr| {
      EntryAt(c, h, i);
      assert h.mshr[i].subs != [];
      hide *;
      if MemRecv(c, h, BlockRead(c, req)).1 { NewOrder(c, h, req, b, i); } else { RefusedOrder(c, h, req, b, i); }
    } else {
      hide *;
      NoEntryOrder(c, h, req, b);
    }
  }

  lemma ReadRefused(c: Config, h: Hier, req: Req)
    requires ValidConfig(c) && PacketOk(c, req.pkt)
    ensures MemRecv(c, h, BlockRead(c, req)).1 == (|h.queue| < CAPACITY)
  {
    hide Fits, Base, GetLocation;
  }

  lemma NoEntryOrder(c: Config, h: Hier, req: Req, b: Word)
    requires Shaped(c, h) && MissesInOrder(h.mshr) && FindEntry(h.mshr, b) == |h.mshr| && !Resident(c, h, b)
    requires FindFreeEntry(h.mshr) == |h.mshr|
    ensures MissStep(c, h, req, b, h, false)
  {
    hide WaitingFor, Resident, FindEntry, FindFreeEntry, AllValid, FilledInOrder;
  }

  lemma NewOrder(c: Config, h: Hier, req: Req, b: Word, i: nat)
    requires Shaped(c, h) && MissesInOrder(h.mshr) && FindEntry(h.mshr, b) == |h.mshr| && !Resident(c, h, b)
    requires i < |h.mshr| && i == FindFreeEntry(h.mshr) && NoneValid(h.mshr[i].subs) && h.mshr[i].subs != []
    requires |h.queue| < CAPACITY
    requires var q := BlockRead(c, req);
             MemRecv(c, h, q) == (h.(queue := h.queue + [q.(ready := q.ready + c.memDelay)]), true)
    ensures var h1 := MemRecv(c, h, BlockRead(c, req)).0;
            MissStep(c, h, req, b, h1.(mshr := h1.mshr[i := CacheSteps.Taken(h.mshr[i], b, req)]), true)
  {
    hide Waiting, BlockRead, MemRecv, FindEntry, FindFreeEntry, Resident, FilledInOrder, WaitingFor;
    var h1 := MemRecv(c, h, BlockRead(c, req)).0;
    var t := CacheSteps.Taken(h.mshr[i], b, req);
    var r := h1.(mshr := h1.mshr[i := t]);
    FirstWaits(h.mshr[i].subs, req);
    TakenWaits(h.mshr, i, t, b, req);
    forall x: Word | Blocked(c, h, x) ensures Blocked(c, r, x) { ResidentSame(c, h, r, x); }
  }

  lemma RefusedOrder(c: Config, h: Hier, req: Req, b: Word, i: nat)
    requires Shaped(c, h) && MissesInOrder(h.mshr) && FindEntry(h.mshr, b) == |h.mshr| && !Resident(c, h, b)
    requires i < |h.mshr| && !h.mshr[i].valid && NoneValid(h.mshr[i].subs) && h.mshr[i].subs != []
    requires |h.queue| >= CAPACITY
    ensures MissStep(c, h, req, b, h.(mshr := h.mshr[i := Refused(h.mshr[i], b, req)]), false)
  {
    hide Waiting, FindEntry, FindFreeEntry, Resident;
    var t := Refused(h.mshr[i], b, req);
    var r := h.(mshr := h.mshr[i := t]);
    SameFree(h.mshr, i, t);
    forall x: Word ensures FindEntry(r.mshr, x) == FindEntry(h.mshr, x) { SameFind(h.mshr, i, t, x); }
    forall x: Word ensures WaitingFor(r.mshr, x) == WaitingFor(h.mshr, x) { UnchangedEntry(h.mshr, i, t, x); }
    forall x: Word | Blocked(c, h, x) ensures Blocked(c, r, x) { ResidentSame(c, h, r, x); }
  }

  lemma UnchangedEntry(mshr: seq<Entry>, i: nat, t: Entry, x: Word)
    requires i < |mshr| && !mshr[i].valid && !t.valid
    ensures WaitingFor(mshr[i := t], x) == WaitingFor(mshr, x)
  {
    hide Waiting, FindEntry;
    SameFind(mshr, i, t, x);
  }

  /** A miss is refused exactly when its block is blocked; otherwise its packet
      waits behind those of its block. No blocked block becomes free. */
  lemma MissOrder(c: Config, h: Hier, req: Req, b: Word)
    requires ValidConfig(c) && Shaped(c, h) && MshrOk(c, h) && MissesInOrder(h.mshr)
    requires PacketOk(c, req.pkt) && b == Base(c, req.pkt.addr) && !Resident(c, h, b)
    ensures var (r, ok) := ProcessMiss(c, h, req);
            MissStep(c, h, req, b, r, ok)
  {
    assert BlockAddress(c, req.pkt.addr) == b by { BaseIsBase(c, req.pkt.addr); }
    var i := FindEntry(h.mshr, b);
    if i < |h.mshr| {
      EntryAt(c, h, i);
      assert h.mshr[i].issued;
      hide *;
      JoinOrder(c, h, req, b);
    } else {
      hide *;
      TakeOrder(c, h, req, b);
    }
  }

  // --------------------------------------------------------------------- ticks

  /** Every write serviced was good. */
  predicate TraceOk(c: Config, trace: seq<Req>) {
    forall k :: 0 <= k < |trace| && trace[k].pkt.isWrite ==> PacketOk(c, trace[k].pkt)
  }

  /** What order needs beside the invariant of the cache. */
  predicate OrderOk(c: Config, h: Hier) {
    MissesInOrder(h.mshr) && TraceOk(c, h.trace)
  }

  /** Every packet of `kept` is of a blocked block. */
  predicate KeptBlocked(c: Config, h: Hier, kept: seq<Req>)
    requires Shaped(c, h)
  {
    forall k :: 0 <= k < |kept| ==> Blocked(c, h, Base(c, kept[k].pkt.addr))
  }

  lemma TraceGrows(c: Config, trace: seq<Req>, reqs: seq<Req>, t: seq<Req>)
    requires TraceOk(c, trace) && ServesNext(trace, reqs, t)
    requires forall k :: 0 <= k < |reqs| ==> PacketOk(c, reqs[k].pkt)
    ensures TraceOk(c, t)
  {
    hide PacketOk;
    forall k | 0 <= k < |t| && t[k].pkt.isWrite ensures PacketOk(c, t[k].pkt) {
      if k < |trace| {
        assert t[k] == t[..|trace|][k];
      } else {
        assert ServedAs(reqs[k - |trace|], t[|trace| + (k - |trace|)]);
      }
    }
  }

  /** A packet whose block is resident is serviced next. */
  lemma HitOrder(c: Config, h: Hier, req: Req, init: Mem)
    requires CacheOk(c, h, init) && PacketOk(c, req.pkt) && Resident(c, h, Base(c, req.pkt.addr))
    ensures var (r, k) := ProcessReady(c, h, req);
            && k.None? && ServesNext(h.trace, [req], r.trace) && r == h.(blocks := r.blocks, trace := r.trace)
            && (forall x: Word :: IsBase(c, x) ==> Resident(c, r, x) == Resident(c, h, x))
  {
    var l := GetLocation(c, req.pkt.addr);
    var b := Base(c, req.pkt.addr);
    assert GetLocation(c, b) == l.(offset := 0) by { BaseIsBase(c, req.pkt.addr); }
    var w := FindWay(h.blocks[l.index], l.tag);
    hide IsBase, RegionOk, GetLocation, Base, BlocksOk, CleanOk, Coherent, Legal, ServeOn, MshrOk, QueueOk, FindWay,
         Resident;
    assert DataOk(c, h, init);
    assert w < c.assoc && Holding(c, h, l.index, w, b) by { ResidentHolds(c, h, req.pkt.addr); }
    ServeKeeps(c, h, l.index, w, req, init);
    ServeOnTrace(c, h, l.index, w, req);
  }

  lemma ResidentHolds(c: Config, h: Hier, a: Word)
    requires ValidConfig(c) && Shaped(c, h) && Resident(c, h, Base(c, a))
    ensures var l := GetLocation(c, a);
            FindWay(h.blocks[l.index], l.tag) < c.assoc
                && Holding(c, h, l.index, FindWay(h.blocks[l.index], l.tag), Base(c, a))
  {
    BaseIsBase(c, a);
    hide GetLocation, Base, IsBase;
  }

  /** A resident block has no entry. */
  lemma ResidentHasNoEntry(c: Config, h: Hier, b: Word)
    requires Shaped(c, h) && MshrOk(c, h) && Resident(c, h, b)
    ensures WaitingFor(h.mshr, b) == []
  {
    hide Resident, HasRead, SubOk, IsBase;
    if FindEntry(h.mshr, b) < |h.mshr| { EntryAt(c, h, FindEntry(h.mshr, b)); }
  }

  lemma HitBlocks(c: Config, h: Hier, r: Hier, kept: seq<Req>)
    requires ValidConfig(c) && Shaped(c, h) && Shaped(c, r) && KeptBlocked(c, h, kept)
    requires r == h.(blocks := r.blocks, trace := r.trace)
    requires forall x: Word :: IsBase(c, x) ==> Resident(c, r, x) == Resident(c, h, x)
    ensures KeptBlocked(c, r, kept)
  {
    hide Resident, Base, FindEntry, FindFreeEntry, AllValid;
    forall k | 0 <= k < |kept| ensures Blocked(c, r, Base(c, kept[k].pkt.addr)) {
      var b := Base(c, kept[k].pkt.addr);
      assert Blocked(c, h, b);
      assert IsBase(c, b) by { BaseIsBase(c, kept[k].pkt.addr); }
    }
  }

  /** No packet of a block that is not blocked has been kept. */
  lemma NothingBefore(c: Config, h: Hier, kept: seq<Req>, b: Word)
    requires Shaped(c, h) && KeptBlocked(c, h, kept) && !Blocked(c, h, b)
    ensures OfBlock(c, kept, b) == []
  {
    hide Blocked, Base;
    NoneOfBlock(c, kept, b);
  }

  /** One ready packet: it goes on behind every packet of its block. */
  lemma ReadyOrder(c: Config, h: Hier, kept: seq<Req>, req: Req, b: Word, init: Mem)
    requires CacheOk(c, h, init) && OrderOk(c, h) && PacketOk(c, req.pkt) && KeptBlocked(c, h, kept)
    ensures var (r, k) := ProcessReady(c, h, req);
            && OrderOk(c, r) && KeptBlocked(c, r, Keep(kept, k))
            && Line(c, r, Keep(kept, k), b) == Line(c, h, kept, b) + OfBlock(c, [req], b)
  {
    hide CacheOk, PacketOk, ProcessReady, ProcessMiss, Base, Resident, OrderOk, KeptBlocked, Line;
    OkShaped(c, h, init);
    if Resident(c, h, Base(c, req.pkt.addr)) {
      ReadyHit(c, h, kept, req, b, init);
    } else {
      ReadyMiss(c, h, kept, req, b, init);
    }
  }

  lemma InFront<T>(t: seq<T>, w: seq<T>, k: seq<T>, x: seq<T>)
    requires x == [] || (w == [] && k == [])
    ensures (t + x) + w + k == t + w + k + x
  {
    if x == [] { assert t + x == t; }
  }

  lemma InMiddle<T>(t: seq<T>, w: seq<T>, k: seq<T>, x: seq<T>)
    requires x == [] || k == []
    ensures t + (w + x) + k == t + w + k + x
  {
    if x == [] { assert w + x == w; } else { assert t + (w + x) == t + w + x; }
  }

  lemma AtEnd<T>(t: seq<T>, w: seq<T>, k: seq<T>, x: seq<T>)
    ensures t + w + (k + x) == t + w + k + x
  {
  }

  lemma ReadyHit(c: Config, h: Hier, kept: seq<Req>, req: Req, b: Word, init: Mem)
    requires CacheOk(c, h, init) && OrderOk(c, h) && PacketOk(c, req.pkt) && KeptBlocked(c, h, kept)
    requires Resident(c, h, Base(c, req.pkt.addr))
    ensures var (r, k) := ProcessReady(c, h, req);
            && k.None? && OrderOk(c, r) && KeptBlocked(c, r, kept)
            && Line(c, r, kept, b) == Line(c, h, kept, b) + OfBlock(c, [req], b)
  {
    hide *;
    CacheParts(c, h, init);
    HitOrder(c, h, req, init);
    var r := ProcessReady(c, h, req).0;
    HitBlocks(c, h, r, kept);
    HitTrace(c, h, r, req);
    HitLine(c, h, r, kept, req, b);
  }

  lemma HitTrace(c: Config, h: Hier, r: Hier, req: Req)
    requires OrderOk(c, h) && ServesNext(h.trace, [req], r.trace) && PacketOk(c, req.pkt) && r.mshr == h.mshr
    ensures OrderOk(c, r)
  {
    hide MissesInOrder, TraceOk, ServesNext, PacketOk;
    TraceGrows(c, h.trace, [req], r.trace);
  }

  lemma HitLine(c: Config, h: Hier, r: Hier, kept: seq<Req>, req: Req, b: Word)
    requires Shaped(c, h) && MshrOk(c, h) && KeptBlocked(c, h, kept) && Resident(c, h, Base(c, req.pkt.addr))
    requires ServesNext(h.trace, [req], r.trace) && r.mshr == h.mshr
    ensures Line(c, r, kept, b) == Line(c, h, kept, b) + OfBlock(c, [req], b)
  {
    LineServed(c, h.trace, [req], r.trace, b);
    OfBlockOne(c, req, b);
    if b == Base(c, req.pkt.addr) {
      ResidentHasNoEntry(c, h, b);
      ResidentFree(c, h, b);
      NothingBefore(c, h, kept, b);
      assert OfBlock(c, WaitingFor(h.mshr, b), b) == [] by { assert WaitingFor(h.mshr, b) == []; }
    }
    InFront(OfBlock(c, h.trace, b), OfBlock(c, WaitingFor(h.mshr, b), b), OfBlock(c, kept, b), OfBlock(c, [req], b));
    hide OfBlock, WaitingFor, Resident, MshrOk, KeptBlocked, Base, ServesNext;
  }

  lemma ResidentFree(c: Config, h: Hier, b: Word)
    requires Shaped(c, h) && Resident(c, h, b)
    ensures !Blocked(c, h, b)
  {
    hide Resident;
  }

  lemma CacheParts(c: Config, h: Hier, init: Mem)
    requires CacheOk(c, h, init)
    ensures ValidConfig(c) && Shaped(c, h) && MshrOk(c, h)
  {
  }

  lemma OrderParts(c: Config, h: Hier)
    requires OrderOk(c, h)
    ensures MissesInOrder(h.mshr)
  {
  }

  lemma ReadyMiss(c: Config, h: Hier, kept: seq<Req>, req: Req, b: Word, init: Mem)
    requires CacheOk(c, h, init) && OrderOk(c, h) && PacketOk(c, req.pkt) && KeptBlocked(c, h, kept)
    requires !Resident(c, h, Base(c, req.pkt.addr))
    ensures var (r, k) := ProcessReady(c, h, req);
            && OrderOk(c, r) && KeptBlocked(c, r, Keep(kept, k))
            && Line(c, r, Keep(kept, k), b) == Line(c, h, kept, b) + OfBlock(c, [req], b)
  {
    hide *;
    CacheParts(c, h, init);
    OrderParts(c, h);
    MissOrder(c, h, req, Base(c, req.pkt.addr));
    MissIsProcess(c, h, req);
    var (r, ok) := ProcessMiss(c, h, req);
    AfterMissIs(kept, req, ok, h.now);
    MissKept(c, h, r, kept, req, ok);
    MissLine(c, h, r, kept, req, ok, b);
  }

  lemma AfterMissIs(kept: seq<Req>, req: Req, ok: bool, now: nat)
    ensures AfterMiss(kept, req, ok, now) == Keep(kept, if ok then None else Some(req.(ready := now + 1)))
  {
  }

  /** What stays in the queue after a miss. */
  function AfterMiss(kept: seq<Req>, req: Req, ok: bool, now: nat): seq<Req> {
    Keep(kept, if ok then None else Some(req.(ready := now + 1)))
  }

  lemma MissKept(c: Config, h: Hier, r: Hier, kept: seq<Req>, req: Req, ok: bool)
    requires Shaped(c, h) && Shaped(c, r) && OrderOk(c, h) && KeptBlocked(c, h, kept)
    requires MissStep(c, h, req, Base(c, req.pkt.addr), r, ok)
    ensures OrderOk(c, r) && KeptBlocked(c, r, AfterMiss(kept, req, ok, h.now))
  {
    hide MissesInOrder, TraceOk, Blocked, WaitingFor, Base;
  }

  lemma MissLine(c: Config, h: Hier, r: Hier, kept: seq<Req>, req: Req, ok: bool, b: Word)
    requires Shaped(c, h) && Shaped(c, r) && KeptBlocked(c, h, kept)
             && MissStep(c, h, req, Base(c, req.pkt.addr), r, ok)
    ensures Line(c, r, AfterMiss(kept, req, ok, h.now), b) == Line(c, h, kept, b) + OfBlock(c, [req], b)
  {
    hide MissesInOrder, KeptBlocked, Blocked, WaitingFor, Base, OfBlock;
    OfBlockOne(c, req, b);
    var t, w := OfBlock(c, h.trace, b), OfBlock(c, WaitingFor(h.mshr, b), b);
    var k, x := OfBlock(c, kept, b), OfBlock(c, [req], b);
    if ok {
      if b == Base(c, req.pkt.addr) { NothingBefore(c, h, kept, b); }
      MissWaits(c, h, r, req, b);
      InMiddle(t, w, k, x);
    } else {
      var q := req.(ready := h.now + 1);
      OfBlockAppend(c, kept, [q], b);
      OfBlockOne(c, q, b);
      assert WaitingFor(r.mshr, b) == WaitingFor(h.mshr, b);
      AtEnd(t, w, k, x);
    }
  }

  lemma MissWaits(c: Config, h: Hier, r: Hier, req: Req, b: Word)
    requires WaitingFor(r.mshr, b) == WaitingFor(h.mshr, b) + if b == Base(c, req.pkt.addr) then [req] else []
    ensures OfBlock(c, WaitingFor(r.mshr, b), b) == OfBlock(c, WaitingFor(h.mshr, b), b) + OfBlock(c, [req], b)
  {
    hide WaitingFor, OfBlock, Base;
    OfBlockAppend(c, WaitingFor(h.mshr, b), [req], b);
    OfBlockOne(c, req, b);
    if b != Base(c, req.pkt.addr) { assert WaitingFor(h.mshr, b) + [] == WaitingFor(h.mshr, b); }
  }

  /** A tick's packets in order: what it keeps stays behind what it passes on. */
  lemma {:induction false} ProcessAllOrder(c: Config, h: Hier, todo: seq<Req>, b: Word, init: Mem)
    requires CacheOk(c, h, init) && OrderOk(c, h) && PendingOk(c, todo)
    ensures var (r, kept) := ProcessAll(c, h, todo);
            && CacheOk(c, r, init) && OrderOk(c, r) && KeptBlocked(c, r, kept)
            && Line(c, r, kept, b) == Line(c, h, todo, b)
    decreases |todo|
  {
    hide CacheOk, ProcessReady, PacketOk, KeptBlocked, PendingOk, OrderOk, Line, OfBlock;
    OkShaped(c, h, init);
    if todo == [] {
      assert KeptBlocked(c, h, []) by { NothingBlocked(c, h); }
    } else {
      var n := |todo| - 1;
      PrefixOk(c, todo);
      ProcessAllOrder(c, h, todo[..n], b, init);
      var (h1, kept) := ProcessAll(c, h, todo[..n]);
      ReadyKeeps(c, h1, todo[n], init);
      ReadyOrder(c, h1, kept, todo[n], b, init);
      var (h2, k) := ProcessReady(c, h1, todo[n]);
      assert ProcessAll(c, h, todo) == (h2, Keep(kept, k));
      LineOneMore(c, h, todo, b);
      hide ProcessAll, Keep;
    }
  }

  lemma NothingBlocked(c: Config, h: Hier)
    requires Shaped(c, h)
    ensures KeptBlocked(c, h, [])
  {
  }

  lemma LineOneMore(c: Config, h: Hier, q: seq<Req>, b: Word)
    requires q != []
    ensures Line(c, h, q, b) == Line(c, h, q[..|q| - 1], b) + OfBlock(c, [q[|q| - 1]], b)
  {
    hide OfBlock, WaitingFor;
    var n := |q| - 1;
    LineAppend(c, h, q[..n], [q[n]], b);
    assert q[..n] + [q[n]] == q;
  }

  lemma LineAppend(c: Config, h: Hier, p: seq<Req>, q: seq<Req>, b: Word)
    ensures Line(c, h, p + q, b) == Line(c, h, p, b) + OfBlock(c, q, b)
  {
    hide OfBlock, WaitingFor;
    OfBlockAppend(c, p, q, b);
    AtEnd(OfBlock(c, h.trace, b), OfBlock(c, WaitingFor(h.mshr, b), b), OfBlock(c, p, b), OfBlock(c, q, b));
  }

  /** A tick of the cache keeps the line of every block. */
  lemma TickOrder(c: Config, h: Hier, b: Word, init: Mem)
    requires CacheOk(c, h, init) && OrderOk(c, h)
    ensures var r := CacheTick(c, h);
            OrderOk(c, r) && Line(c, r, r.pending, b) == Line(c, h, h.pending, b)
  {
    hide CacheOk, ProcessAll, PendingOk, OrderOk, Line, OfBlock;
    OkShaped(c, h, init);
    var k := ReadyPrefix(h.pending, h.now);
    var (h1, kept) := ProcessAll(c, h, h.pending[..k]);
    var rest := h.pending[k..];
    RestOk(c, h, init, k);
    ProcessAllOrder(c, h, h.pending[..k], b, init);
    assert h.pending == h.pending[..k] + rest;
    LineAppend(c, h, h.pending[..k], rest, b);
    LineAppend(c, h1, kept, rest, b);
    SameOrder(c, h1, CacheTick(c, h), kept + rest, b);
  }

  lemma SameOrder(c: Config, h: Hier, r: Hier, q: seq<Req>, b: Word)
    requires r.trace == h.trace && r.mshr == h.mshr
    ensures OrderOk(c, r) == OrderOk(c, h) && Line(c, r, q, b) == Line(c, h, q, b)
  {
    hide OfBlock, WaitingFor, MissesInOrder, TraceOk;
  }

  // --------------------------------------------------------------------- fills

  lemma FreedWaits(c: Config, mshr: seq<Entry>, i: nat, b: Word)
    requires DistinctEntries(mshr) && i < |mshr| && FindEntry(mshr, b) == i
    ensures forall x: Word :: WaitingFor(mshr[i := Freed(c)], x) == if x == b then [] else WaitingFor(mshr, x)
  {
    hide Waiting, FindEntry;
    var r := mshr[i := Freed(c)];
    forall x: Word ensures WaitingFor(r, x) == if x == b then [] else WaitingFor(mshr, x) {
      if x != b { SameFind(mshr, i, Freed(c), x); } else { assert HoldsMiss(mshr[i], b); }
    }
  }

  lemma FreedOrder(c: Config, mshr: seq<Entry>, i: nat)
    requires MissesInOrder(mshr) && i < |mshr|
    ensures MissesInOrder(mshr[i := Freed(c)])
  {
    assert FilledInOrder(Freed(c).subs);
    hide FilledInOrder;
  }

  /** An answered read: the packets that waited go on in their order. */
  lemma AnswerOrder(c: Config, h: Hier, b0: Word, r: Hier, q: seq<Req>, b: Word)
    requires Shaped(c, h) && OrderOk(c, h) && MshrOk(c, h) && CacheSteps.Answered(c, h, b0, r)
    ensures OrderOk(c, r) && Line(c, r, q, b) == Line(c, h, q, b)
  {
    var i := FindEntry(h.mshr, b0);
    var reqs := Waiting(h.mshr[i].subs);
    assert AllOf(c, b0, reqs) by { WaitersOf(c, h, i, b0); }
    assert forall k :: 0 <= k < |reqs| ==> PacketOk(c, reqs[k].pkt);
    assert DistinctEntries(h.mshr);
    hide MshrOk, PacketOk, Waiting, FindEntry, ServesNext, FilledInOrder, Base, OfBlock;
    TraceGrows(c, h.trace, reqs, r.trace);
    FreedOrder(c, h.mshr, i);
    FreedWaits(c, h.mshr, i, b0);
    LineServed(c, h.trace, reqs, r.trace, b);
    if b == b0 {
      assert OfBlock(c, WaitingFor(r.mshr, b), b) == [] by {
        assert WaitingFor(r.mshr, b) == [];
        NoneOfBlock(c, [], b);
      }
      MovedFront(OfBlock(c, h.trace, b), OfBlock(c, reqs, b), OfBlock(c, q, b));
    } else {
      NoneOfBlock(c, reqs, b);
      MovedFront(OfBlock(c, h.trace, b), [], OfBlock(c, q, b));
    }
  }

  lemma MovedFront<T>(t: seq<T>, w: seq<T>, k: seq<T>)
    ensures (t + w) + [] + k == t + w + k && (w == [] ==> t + w == t)
  {
  }

  lemma WaitersOf(c: Config, h: Hier, i: nat, b: Word)
    requires Shaped(c, h) && MshrOk(c, h) && i < |h.mshr| && HoldsMiss(h.mshr[i], b)
    ensures AllOf(c, b, Waiting(h.mshr[i].subs))
  {
    EntryAt(c, h, i);
    hide SubOk, Resident, MshrOk, Waiting, HasRead, IsBase;
    WaitingOf(c, b, h.mshr[i].subs);
  }

  lemma ServeOrder(c: Config, h: Hier, choice: nat, b: Word, init: Mem)
    requires HierOk(c, h, init) && OrderOk(c, h) && h.queue != []
    ensures var r := MemServe(c, h, Comparing, choice);
            OrderOk(c, r) && Line(c, r, r.pending, b) == Line(c, h, h.pending, b)
  {
    assert MshrOk(c, h) && CacheOk(c, h, init) && !h.crashed && |h.queue| <= CAPACITY;
    hide *;
    MemServeKeeps(c, h, choice, init);
    var r := MemServe(c, h, Comparing, choice);
    if h.queue[0].pkt.isWrite {
      SameOrder(c, h, r, h.pending, b);
    } else {
      AnswerOrder(c, h, h.queue[0].pkt.addr, r, h.pending, b);
    }
  }

  // ---------------------------------------------------------------------- runs

  /** The packet that an event has the cache accept, if any. */
  function AcceptedNow(h: Hier, e: CacheEvent): seq<Req> {
    if !h.crashed && e.Submitted? && |h.pending| < CAPACITY then [Req(h.accepted, e.pkt, 0)] else []
  }

  /** Every packet accepted in a run, in the order of acceptance. */
  function Accepted(c: Config, h: Hier, lookup: Lookup, es: seq<CacheEvent>): seq<Req>
    requires Shaped(c, h)
    decreases |es|
  {
    if es == [] then []
    else Accepted(c, h, lookup, es[..|es| - 1]) + AcceptedNow(RunHier(c, h, lookup, es[..|es| - 1]), es[|es| - 1])
  }

  /** The packets are numbered in the order of acceptance. */
  predicate LogOk(c: Config, log: seq<Req>, n: nat) {
    |log| == n && forall k :: 0 <= k < |log| ==> log[k].id == k && PacketOk(c, log[k].pkt)
  }

  /** An event goes on from `h` to `r` and has the packets `taken` accepted: the
      line of each block grows by those of the block. */
  predicate Advances(c: Config, h: Hier, r: Hier, taken: seq<Req>, b: Word) {
    && OrderOk(c, r) && r.accepted == h.accepted + |taken|
    && Line(c, r, r.pending, b) == Line(c, h, h.pending, b) + OfBlock(c, taken, b)
  }

  lemma StaysInLine(c: Config, h: Hier, r: Hier, b: Word)
    requires OrderOk(c, r) && r.accepted == h.accepted && Line(c, r, r.pending, b) == Line(c, h, h.pending, b)
    ensures Advances(c, h, r, [], b)
  {
    hide OrderOk, Line;
  }

  lemma EventOrder(c: Config, h: Hier, e: CacheEvent, b: Word, init: Mem)
    requires HierOk(c, h, init) && OrderOk(c, h) && EventOk(c, e) && Shaped(c, h)
    ensures Advances(c, h, NextHier(c, h, Comparing, e), AcceptedNow(h, e), b)
  {
    hide HierOk, MemServe, CacheTick, OrderOk, Submit, Line, Advances;
    HierParts(c, h, init);
    match e
    case Submitted(pkt) => SubmitOrder(c, h, pkt, b);
    case MemoryServes(choice) => ServesOrder(c, h, choice, b, init);
    case CacheTicks => TicksOrder(c, h, b, init);
    case TimePasses =>
      SameOrder(c, h, h.(now := h.now + 1), h.pending, b);
      StaysInLine(c, h, h.(now := h.now + 1), b);
  }

  lemma HierParts(c: Config, h: Hier, init: Mem)
    requires HierOk(c, h, init)
    ensures CacheOk(c, h, init) && !h.crashed && Disciplined(c, h)
  {
    hide CacheOk, Conserved, Disciplined;
  }

  lemma ServesOrder(c: Config, h: Hier, choice: nat, b: Word, init: Mem)
    requires HierOk(c, h, init) && OrderOk(c, h) && Shaped(c, h) && !h.crashed
    ensures Advances(c, h, NextHier(c, h, Comparing, MemoryServes(choice)), [], b)
  {
    hide HierOk, MemServe, OrderOk, Line, Advances;
    if h.queue != [] && h.queue[0].ready <= h.now {
      ServeOrder(c, h, choice, b, init);
      ServeFrame(c, h, Comparing, choice);
      StaysInLine(c, h, MemServe(c, h, Comparing, choice), b);
    } else {
      StaysInLine(c, h, h, b);
    }
  }

  lemma TicksOrder(c: Config, h: Hier, b: Word, init: Mem)
    requires CacheOk(c, h, init) && OrderOk(c, h) && Disciplined(c, h)
    ensures Advances(c, h, CacheTick(c, h), [], b)
  {
    hide *;
    OkShaped(c, h, init);
    TickOrder(c, h, b, init);
    CacheTickKeeps(c, h, init);
    StaysInLine(c, h, CacheTick(c, h), b);
  }

  lemma SubmitOrder(c: Config, h: Hier, pkt: Packet, b: Word)
    requires OrderOk(c, h) && !h.crashed
    ensures Advances(c, h, Submit(c, h, pkt).0, AcceptedNow(h, Submitted(pkt)), b)
  {
    hide Line, OrderOk, OfBlock;
    var r := Submit(c, h, pkt).0;
    if |h.pending| < CAPACITY {
      var q := Req(h.accepted, pkt, h.now + c.delay);
      LineAppend(c, h, h.pending, [q], b);
      SameOrder(c, h, r, r.pending, b);
      OfBlockSame(c, q, Req(h.accepted, pkt, 0), b);
    } else {
      StaysInLine(c, h, h, b);
    }
  }

  lemma OfBlockSame(c: Config, p: Req, q: Req, b: Word)
    requires Stripped(p) == Stripped(q) && OnBlock(c, p, b) == OnBlock(c, q, b)
    ensures OfBlock(c, [p], b) == OfBlock(c, [q], b)
  {
    OfBlockOne(c, p, b);
    OfBlockOne(c, q, b);
    hide Stripped, OnBlock, OfBlock;
  }

  lemma LogGrows(c: Config, h: Hier, log: seq<Req>, e: CacheEvent)
    requires LogOk(c, log, h.accepted) && EventOk(c, e)
    ensures LogOk(c, log + AcceptedNow(h, e), h.accepted + |AcceptedNow(h, e)|)
  {
    hide PacketOk;
  }

  /** First come, first served, block by block. Over every run, whatever is
      outstanding: the packets accepted for a block are those serviced on it,
      then those waiting for it in the miss registers, then those in the queue
      of the cache, in the order of acceptance. */
  lemma {:induction false} FirstComeFirstServed(c: Config, init: Mem, es: seq<CacheEvent>, b: Word)
    requires ValidConfig(c) && forall k :: 0 <= k < |es| ==> EventOk(c, es[k])
    ensures var h := RunHier(c, StartHier(c, init), Comparing, es);
            var log := Accepted(c, StartHier(c, init), Comparing, es);
            && LogOk(c, log, h.accepted) && OrderOk(c, h)
            && Line(c, h, h.pending, b) == OfBlock(c, log, b)
    decreases |es|
  {
    hide NextHier, EventOk, ValidConfig, StartHier, Line, OrderOk, LogOk, OfBlock, HierOk, AcceptedNow, Legal, Coherent,
         Conserved;
    var h0 := StartHier(c, init);
    if es == [] {
      StartOrder(c, init, b);
    } else {
      var n := |es| - 1;
      var h := RunHier(c, h0, Comparing, es[..n]);
      var log := Accepted(c, h0, Comparing, es[..n]);
      ServicesAreFlat(c, init, es[..n]);
      FirstComeFirstServed(c, init, es[..n], b);
      EventOrder(c, h, es[n], b, init);
      LogGrows(c, h, log, es[n]);
      OfBlockAppend(c, log, AcceptedNow(h, es[n]), b);
    }
  }

  lemma StartOrder(c: Config, init: Mem, b: Word)
    ensures var h := StartHier(c, init);
            LogOk(c, [], h.accepted) && OrderOk(c, h) && Line(c, h, h.pending, b) == OfBlock(c, [], b)
  {
    var h := StartHier(c, init);
    assert FindEntry(h.mshr, b) == |h.mshr|;
    assert WaitingFor(h.mshr, b) == [];
    hide PacketOk, Stripped, OnBlock;
  }
}
