/** Two misses outstanding, as any client may have them: the entry lookup of the
    source then stops the simulator. */
module CacheTwoMisses {
  import opened Words
  import opened Packets
  import opened Isa
  import opened Geometry
  import opened CacheSpec
  import opened CacheInvariant
  import opened CacheProofs
  import opened CacheFrames
  import opened CacheRuns
  import opened CacheL1D

  function Times(n: nat): seq<CacheEvent> {
    if n == 0 then [] else Times(n - 1) + [TimePasses]
  }

  /** Two requests, the delay of the cache, and a tick. */
  function TwoRequests(c: Config, p: Packet, q: Packet): seq<CacheEvent> {
    [Submitted(p)] + [Submitted(q)] + Times(c.delay) + [CacheTicks]
  }

  lemma RunOne(c: Config, h: Hier, lookup: Lookup, es: seq<CacheEvent>, e: CacheEvent)
    requires Shaped(c, h)
    ensures RunHier(c, h, lookup, es + [e]) == NextHier(c, RunHier(c, h, lookup, es), lookup, e)
  {
    hide NextHier;
    assert (es + [e])[..|es|] == es;
  }

  lemma {:induction false} RunTimes(c: Config, h: Hier, lookup: Lookup, es: seq<CacheEvent>, n: nat, init: Mem)
    requires Shaped(c, h) && HierOk(c, RunHier(c, h, lookup, es), init)
    ensures var r := RunHier(c, h, lookup, es);
            RunHier(c, h, lookup, es + Times(n)) == r.(now := r.now + n)
                && HierOk(c, RunHier(c, h, lookup, es + Times(n)), init)
  {
    hide RunHier, HierOk;
    if n == 0 {
      assert es + Times(0) == es;
    } else {
      RunTimes(c, h, lookup, es, n - 1, init);
      var r := RunHier(c, h, lookup, es + Times(n - 1));
      assert es + Times(n) == es + Times(n - 1) + [TimePasses];
      RunOne(c, h, lookup, es + Times(n - 1), TimePasses);
      NotCrashed(c, r, init);
      EventKeepsHier(c, r, TimePasses, init);
    }
  }

  /** The cache with both requests in its queue. */
  function Queued(c: Config, init: Mem, p: Packet, q: Packet): (h: Hier)
    ensures Shaped(c, h)
  {
    StartHier(c, init).(pending := [Req(0, p, c.delay), Req(1, q, c.delay)], accepted := 2)
  }

  lemma BothQueued(c: Config, init: Mem, p: Packet, q: Packet, lookup: Lookup)
    requires ValidConfig(c) && PacketOk(c, p) && PacketOk(c, q)
    ensures RunHier(c, StartHier(c, init), lookup, [Submitted(p)] + [Submitted(q)]) == Queued(c, init, p, q)
    ensures HierOk(c, Queued(c, init, p, q), init)
  {
    var h0 := StartHier(c, init);
    var h1 := h0.(pending := [Req(0, p, c.delay)], accepted := 1);
    assert h0.pending + [Req(0, p, c.delay)] == [Req(0, p, c.delay)];
    assert h1.pending + [Req(1, q, c.delay)] == Queued(c, init, p, q).pending;
    StartOk(c, init);
    hide HierOk, PacketOk;
    assert NextHier(c, h0, lookup, Submitted(p)) == h1
           && NextHier(c, h1, lookup, Submitted(q)) == Queued(c, init, p, q);
    var none: seq<CacheEvent> := [];
    assert none + [Submitted(p)] == [Submitted(p)];
    RunOne(c, h0, lookup, [], Submitted(p));
    RunOne(c, h0, lookup, [Submitted(p)], Submitted(q));
    EventKeepsHier(c, h0, Submitted(p), init);
    EventKeepsHier(c, h1, Submitted(q), init);
  }

  lemma NothingResident(c: Config, init: Mem, b: Word)
    ensures !Resident(c, StartHier(c, init), b)
  {
    hide GetLocation;
    var h := StartHier(c, init);
    NoWay(h.blocks[GetLocation(c, b).index], GetLocation(c, b).tag);
  }

  /** After the tick both misses are outstanding, the first in entry 0. */
  predicate BothMiss(c: Config, h: Hier, delay: nat) {
    && |h.queue| == 2 && !h.queue[0].pkt.isWrite && !h.queue[1].pkt.isWrite
    && h.mshr != [] && HoldsMiss(h.mshr[0], h.queue[0].pkt.addr)
    && h.queue[0].ready == h.queue[1].ready == delay
  }

  lemma ProcessNext(c: Config, h: Hier, todo: seq<Req>, q: Req)
    requires Shaped(c, h)
    ensures var (h1, kept) := ProcessAll(c, h, todo);
            var (h2, k) := ProcessReady(c, h1, q);
            ProcessAll(c, h, todo + [q]) == (h2, if k.Some? then kept + [k.value] else kept)
  {
    hide ProcessReady;
    assert (todo + [q])[..|todo|] == todo;
  }

  lemma ProcessTwo(c: Config, h: Hier, p: Req, q: Req)
    requires Shaped(c, h)
    requires ProcessReady(c, h, p).1.None? && ProcessReady(c, ProcessReady(c, h, p).0, q).1.None?
    ensures ProcessAll(c, h, [p, q]) == (ProcessReady(c, ProcessReady(c, h, p).0, q).0, [])
  {
    hide *;
    ProcessOne(c, h, p);
    ProcessNext(c, h, [p], q);
    assert [p] + [q] == [p, q];
  }

  lemma TickBoth(c: Config, init: Mem, p: Packet, q: Packet)
    requires ValidConfig(c) && PacketOk(c, p) && PacketOk(c, q) && c.entries >= 2 && Base(c, p.addr) != Base(c, q.addr)
    ensures var h := Queued(c, init, p, q);
            BothMiss(c, CacheTick(c, h.(now := c.delay)), c.delay + c.memDelay)
            && CacheTick(c, h.(now := c.delay)).now == c.delay
  {
    hide PacketOk, ProcessReady, Base, Resident, BlockRead;
    var h := Queued(c, init, p, q).(now := c.delay);
    var r0, r1 := h.pending[0], h.pending[1];
    var b0, b1 := Base(c, p.addr), Base(c, q.addr);
    assert h.pending[..2] == [r0, r1] && h.pending == [r0, r1];
    NothingResident(c, init, b0);
    NothingResident(c, init, b1);
    FirstMisses(c, h, r0, 0) by { ResidentIs(c, StartHier(c, init), h, b0); }
    var h1 := ProcessReady(c, h, r0).0;
    assert h1.mshr[0].valid && h1.mshr[0].address == b0 && forall i :: 0 < i < |h1.mshr| ==> !h1.mshr[i].valid;
    FirstMisses(c, h1, r1, 1) by { ResidentIs(c, StartHier(c, init), h1, b1); }
    ProcessTwo(c, h, r0, r1);
    assert ReadyPrefix(h.pending, h.now) == 2;
    ReadOf(c, r0);
    ReadOf(c, r1);
  }

  lemma ReadOf(c: Config, req: Req)
    ensures IsRead(BlockRead(c, req), Base(c, req.pkt.addr)) && BlockRead(c, req).ready == req.ready
  {
  }

  lemma ResidentIs(c: Config, h: Hier, r: Hier, b: Word)
    requires Shaped(c, h) && Shaped(c, r) && r.blocks == h.blocks
    ensures Resident(c, r, b) == Resident(c, h, b)
  {
  }

  /** Two requests to different blocks bring the cache into the state in which
      the lookup as written fails. */
  lemma BothOutstanding(c: Config, init: Mem, p: Packet, q: Packet, lookup: Lookup)
    requires ValidConfig(c) && PacketOk(c, p) && PacketOk(c, q) && c.entries >= 2 && Base(c, p.addr) != Base(c, q.addr)
    ensures var h := RunHier(c, StartHier(c, init), lookup, TwoRequests(c, p, q));
            HierOk(c, h, init) && BothMiss(c, h, c.delay + c.memDelay) && h.now == c.delay
  {
    hide HierOk, PacketOk, RunHier, CacheTick, StartHier, BothMiss, Times, ValidConfig, Queued, Base;
    var h0 := StartHier(c, init);
    var es := [Submitted(p)] + [Submitted(q)];
    BothQueued(c, init, p, q, lookup);
    RunTimes(c, h0, lookup, es, c.delay, init);
    QueuedAtZero(c, init, p, q);
    var h := RunHier(c, h0, lookup, es + Times(c.delay));
    RunOne(c, h0, lookup, es + Times(c.delay), CacheTicks);
    NotCrashed(c, h, init);
    EventKeepsHier(c, h, CacheTicks, init);
    TickBoth(c, init, p, q);
  }

  lemma QueuedAtZero(c: Config, init: Mem, p: Packet, q: Packet)
    ensures Queued(c, init, p, q).now == 0
  {
  }

  /** Two loads or stores of different blocks, and the simulator stops on its
      assertion as soon as main memory has answered the second: on every
      geometry with two miss registers, from the start, at the earliest time the
      delays allow. */
  lemma TwoMissesFail(c: Config, init: Mem, p: Packet, q: Packet, choice1: nat, choice2: nat)
    requires ValidConfig(c) && PacketOk(c, p) && PacketOk(c, q) && c.entries >= 2 && Base(c, p.addr) != Base(c, q.addr)
    ensures var es := TwoRequests(c, p, q) + Times(c.memDelay);
            && !RunHier(c, StartHier(c, init), AsWritten, es + [MemoryServes(choice1)]).crashed
            && RunHier(c, StartHier(c, init), AsWritten, es + [MemoryServes(choice1)] + [MemoryServes(choice2)]).crashed
  {
    hide HierOk, PacketOk, RunHier, MemServe, StartHier, Times, TwoRequests, ValidConfig, Base;
    var h0 := StartHier(c, init);
    var es := TwoRequests(c, p, q) + Times(c.memDelay);
    BothOutstanding(c, init, p, q, AsWritten);
    RunTimes(c, h0, AsWritten, TwoRequests(c, p, q), c.memDelay, init);
    var h := RunHier(c, h0, AsWritten, es);
    NotCrashed(c, h, init);
    SecondMissFails(c, h, choice1, choice2, init);
    RunOne(c, h0, AsWritten, es, MemoryServes(choice1));
    RunOne(c, h0, AsWritten, es + [MemoryServes(choice1)], MemoryServes(choice2));
    SecondReady(c, h, choice1);
  }

  /** The second answer is due with the first. */
  lemma SecondReady(c: Config, h: Hier, choice: nat)
    requires Shaped(c, h) && |h.queue| == 2
    ensures var r := MemServe(c, h, AsWritten, choice);
            r.now == h.now && (r.queue != [] ==> r.queue[0] == h.queue[1])
  {
    hide MemServe;
    ServeFrame(c, h, AsWritten, choice);
    var r := MemServe(c, h, AsWritten, choice);
    if r.queue != [] { assert r.queue[..1][0] == h.queue[1..][0]; }
  }
}
