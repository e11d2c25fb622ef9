/** How long the client of the cache waits, when it waits for one request at a
    time: the request is due at a time fixed when it is accepted, and no tick
    leaves it unserved beyond that time. */
module CacheDeadlines {
  import opened Words
  import opened Isa
  import opened Packets
  import opened Geometry
  import opened CacheSpec
  import opened CacheInvariant
  import CacheProofs
  import opened CacheSteps
  import opened CacheFrames
  import opened CacheRuns
  import opened CacheL1D
  import opened MemoryHierarchy

  predicate Busy(h: Hier) {
    h.mshr != [] && Outstanding(h) != []
  }

  /** When the outstanding request is served at the latest: when the read of its
      block is ready in main memory, or would be if it missed. */
  function Due(c: Config, h: Hier): nat {
    if h.mshr != [] && h.mshr[0].valid then if h.queue == [] then 0 else h.queue[|h.queue| - 1].ready
    else if h.pending == [] then 0
    else h.pending[0].ready + c.memDelay
  }

  /** Main memory's queue is sorted by ready time. */
  predicate QueueTimes(c: Config, h: Hier) {
    && (forall k :: 0 <= k < |h.queue| ==> h.queue[k].ready <= h.now + c.memDelay)
    && (|h.queue| == 2 ==> h.queue[0].ready <= h.queue[1].ready)
  }

  /** Between two steps that let no time pass: the request is still there and due
      as before, or it has been served. */
  predicate OnTime(c: Config, h: Hier, r: Hier) {
    && r.now == h.now
    && if r.trace == h.trace then Busy(r) == Busy(h) && (Busy(h) ==> Due(c, r) == Due(c, h))
       else |r.trace| == |h.trace| + 1 && Busy(h) && !Busy(r)
  }

  /** A miss in the first entry has its read at the end of the queue. */
  lemma MissIsQueued(c: Config, h: Hier, init: Mem)
    requires HierOk(c, h, init) && SingleOk(h) && h.mshr[0].valid && Shaped(c, h)
    ensures h.queue != [] && !h.queue[|h.queue| - 1].pkt.isWrite
  {
    hide *;
    MissHasRead(c, h, init);
    LastIsRead(h, h.mshr[0].address);
  }

  lemma MissHasRead(c: Config, h: Hier, init: Mem)
    requires HierOk(c, h, init) && SingleOk(h) && h.mshr[0].valid && Shaped(c, h)
    ensures h.mshr != [] && HasRead(h.queue, h.mshr[0].address)
  {
    hide BlocksOk, CleanOk, PendingOk, QueueOk, Coherent, Legal, Conserved, Disciplined, Resident, SubOk, IsBase,
         HasRead, Waiting, Outstanding;
    EntryAt(c, h, 0);
  }

  lemma LastIsRead(h: Hier, a: Word)
    requires SingleOk(h) && HasRead(h.queue, a)
    ensures h.queue != [] && !h.queue[|h.queue| - 1].pkt.isWrite
  {
    hide Outstanding;
  }

  lemma WriteTimes(c: Config, h: Hier, choice: nat, init: Mem)
    requires HierOk(c, h, init) && SingleOk(h) && Shaped(c, h) && QueueTimes(c, h) && h.queue != []
             && h.queue[0].pkt.isWrite
    ensures var r := MemServe(c, h, Comparing, choice);
            QueueTimes(c, r) && OnTime(c, h, r) && r.mshr == h.mshr && r.pending == h.pending
  {
    hide *;
    WriteAlone(c, h, init);
    FrontGoes(c, h, choice, init);
    FrontTimes(c, h, MemServe(c, h, Comparing, choice));
  }

  lemma WriteAlone(c: Config, h: Hier, init: Mem)
    requires HierOk(c, h, init) && SingleOk(h) && Shaped(c, h) && h.queue != [] && h.queue[0].pkt.isWrite
    ensures h.mshr != [] && |h.queue| <= 2 && (h.mshr[0].valid ==> |h.queue| == 2)
  {
    hide HierOk, Waiting, Outstanding;
    if h.mshr[0].valid { MissIsQueued(c, h, init); }
  }

  lemma FrontTimes(c: Config, h: Hier, r: Hier)
    requires h.mshr != [] && QueueTimes(c, h) && h.queue != [] && |h.queue| <= 2
    requires h.mshr[0].valid ==> |h.queue| == 2
    requires r.queue == h.queue[1..] && r.mshr == h.mshr && r.pending == h.pending && r.trace == h.trace
             && r.now == h.now
    ensures QueueTimes(c, r) && OnTime(c, h, r)
  {
    hide Waiting;
  }

  lemma FrontGoes(c: Config, h: Hier, choice: nat, init: Mem)
    requires HierOk(c, h, init) && Shaped(c, h) && h.queue != [] && h.queue[0].pkt.isWrite
    ensures var r := MemServe(c, h, Comparing, choice);
            r.queue == h.queue[1..] && r.mshr == h.mshr && r.pending == h.pending && r.trace == h.trace
                && r.now == h.now
  {
    hide HierOk, After, Mapped;
  }

  lemma FillTimes(c: Config, h: Hier, choice: nat, init: Mem)
    requires HierOk(c, h, init) && SingleOk(h) && Shaped(c, h) && QueueTimes(c, h) && h.queue != []
             && !h.queue[0].pkt.isWrite
    ensures var r := MemServe(c, h, Comparing, choice);
            QueueTimes(c, r) && OnTime(c, h, r) && r.pending == h.pending
  {
    hide HierOk, Waiting, MemServe;
    FrontIsMiss(c, h, init);
    ReadIsFirst(c, h, init, 0);
    var req := Waiting(h.mshr[0].subs)[0];
    assert Waiting(h.mshr[0].subs) == [req];
    WaitingFits(c, h, init);
    FillShape(c, h, choice, req);
    ServeFrame(c, h, Comparing, choice);
  }

  /** Main memory's tick. Afterwards nothing in its queue is ready. */
  lemma {:induction false} MemTickTimes(c: Config, h: Hier, rand: nat -> nat, n: nat, init: Mem)
    requires HierOk(c, h, init) && SingleOk(h) && Shaped(c, h) && QueueTimes(c, h)
    ensures var r := MemTick(c, h, rand, n);
            && HierOk(c, r, init) && SingleOk(r) && QueueTimes(c, r) && OnTime(c, h, r) && r.pending == h.pending
            && (r.queue == [] || r.queue[0].ready > r.now)
    decreases Work(h.queue)
  {
    hide HierOk, MemServe, Work, QueueTimes, SingleOk, Outstanding, Due;
    NotCrashed(c, h, init);
    MemTickStep(c, h, rand, n);
    if h.queue != [] && h.queue[0].ready <= h.now {
      var e := MemoryServes(rand(n));
      SingleStep(c, h, e, init);
      var g := MemServe(c, h, AsWritten, rand(n));
      assert g == NextHier(c, h, AsWritten, e) && g == MemServe(c, h, Comparing, rand(n));
      if h.queue[0].pkt.isWrite { WriteTimes(c, h, rand(n), init); } else { FillTimes(c, h, rand(n), init); }
      WorkDecreases(c, h, AsWritten, rand(n));
      MemTickTimes(c, g, rand, n + 1, init);
    }
  }

  /** A tick of the cache. Afterwards no request is ready in its queue, and one
      that has just missed is not due yet. */
  lemma CacheTickTimes(c: Config, h: Hier, init: Mem)
    requires HierOk(c, h, init) && SingleOk(h) && Shaped(c, h) && QueueTimes(c, h)
    requires h.pending != [] ==> h.pending[0].ready >= h.now
    ensures var r := CacheTick(c, h);
            && HierOk(c, r, init) && SingleOk(r) && QueueTimes(c, r) && OnTime(c, h, r)
            && (r.pending != [] ==> r.pending[0].ready > r.now)
            && (r.mshr[0].valid && !h.mshr[0].valid ==> Due(c, r) >= r.now)
  {
    hide HierOk, ProcessReady, Waiting, CacheTick;
    assert EventOk(c, CacheTicks);
    NotCrashed(c, h, init);
    SingleStep(c, h, CacheTicks, init);
    assert NextHier(c, h, AsWritten, CacheTicks) == CacheTick(c, h);
    var k := ReadyPrefix(h.pending, h.now);
    if k == 0 {
      TickOfNone(c, h);
    } else {
      TickOfOne(c, h);
      ReadyTimes(c, h, h.pending[0], init);
    }
  }

  lemma TickOfNone(c: Config, h: Hier)
    requires Shaped(c, h) && ReadyPrefix(h.pending, h.now) == 0
    ensures CacheTick(c, h) == h
  {
    assert h.pending[..0] == [];
    assert [] + h.pending == h.pending;
  }

  lemma TickOfOne(c: Config, h: Hier)
    requires Shaped(c, h) && |h.pending| == 1 && ReadyPrefix(h.pending, h.now) == 1
    ensures var (r, k) := ProcessReady(c, h, h.pending[0]);
            CacheTick(c, h) == r.(pending := if k.Some? then [k.value] else [])
  {
    hide ProcessReady;
    var req := h.pending[0];
    assert h.pending[..1] == [req] && h.pending[1..] == [];
    ProcessOne(c, h, req);
    var (r, k) := ProcessReady(c, h, req);
    assert [] + h.pending[1..] == [] && (k.Some? ==> [k.value] + h.pending[1..] == [k.value]);
  }

  /** The one request in the queue, ready now: it is served, or takes the first
      miss register and a place in main memory's queue. */
  lemma ReadyTimes(c: Config, h: Hier, req: Req, init: Mem)
    requires HierOk(c, h, init) && SingleOk(h) && Shaped(c, h) && QueueTimes(c, h)
    requires !h.mshr[0].valid && h.pending == [req] && req.ready == h.now
    ensures var (r, k) := ProcessReady(c, h, req);
            && k.None? && QueueTimes(c, r) && r.now == h.now
            && (r.trace == h.trace ==> r.mshr != [] && r.mshr[0].valid && r.queue != []
                                       && Due(c, r) == req.ready + c.memDelay
                                       && Outstanding(r) == [req])
            && (r.trace != h.trace ==> r.mshr == h.mshr && |r.trace| == |h.trace| + 1)
  {
    var b := Base(c, req.pkt.addr);
    FirstIsFree(c, h, b, init);
    PendingGood(c, h, init);
    hide HierOk, Base, Resident, GetLocation, ProcessReady, Waiting, PacketOk, BlockRead, SingleOk;
    if Resident(c, h, b) {
      HitTimes(c, h, req, init);
    } else {
      FirstMisses(c, h, req, 0);
      OneWaiting(h.mshr[0].subs, req);
      ReadReady(c, req);
    }
  }

  lemma FirstIsFree(c: Config, h: Hier, b: Word, init: Mem)
    requires HierOk(c, h, init) && SingleOk(h) && Shaped(c, h) && !h.mshr[0].valid
    ensures ValidConfig(c) && |h.queue| <= 1 && FindEntry(h.mshr, b) == |h.mshr| && FindFreeEntry(h.mshr) == 0
    ensures NoneValid(h.mshr[0].subs) && !h.mshr[0].issued && h.mshr[0].subs != []
  {
    assert ValidConfig(c) && EntryOk(c, h, h.mshr[0]);
    NoReadQueued(c, h, init);
    hide HierOk, Waiting;
  }

  lemma ReadReady(c: Config, req: Req)
    ensures BlockRead(c, req).ready == req.ready
  {
  }

  lemma HitTimes(c: Config, h: Hier, req: Req, init: Mem)
    requires HierOk(c, h, init) && Shaped(c, h) && PacketOk(c, req.pkt) && Resident(c, h, Base(c, req.pkt.addr))
    ensures var (r, k) := ProcessReady(c, h, req);
            k.None? && r == h.(blocks := r.blocks, trace := r.trace) && |r.trace| == |h.trace| + 1
  {
    assert ValidConfig(c);
    CacheProofs.BaseIsBase(c, req.pkt.addr);
    hide HierOk, Base, GetLocation, ServeOn, RegionOk, IsBase;
    var l := GetLocation(c, req.pkt.addr);
    ServeOnTrace(c, h, l.index, FindWay(h.blocks[l.index], l.tag), req);
  }
}
