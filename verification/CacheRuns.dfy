/** The cache over main memory services its packets as a flat memory would, over
    every run. */
module CacheRuns {
  import opened Words
  import opened Isa
  import opened Packets
  import opened Geometry
  import opened CacheSpec
  import opened CacheInvariant
  import opened CacheProofs
  import opened CacheSteps

  // --------------------------------------------------------------- cache ticks

  function Moved(k: Option<Req>): multiset<nat> {
    if k.Some? then multiset{k.value.id} else multiset{}
  }

  /** The packets that wait in the miss registers or have been serviced. */
  function Beyond(h: Hier): multiset<nat> {
    MissIds(h.mshr) + Ids(h.trace)
  }

  /** A packet whose block is resident. */
  lemma HitKeeps(c: Config, h: Hier, req: Req, init: Mem)
    requires CacheOk(c, h, init) && PacketOk(c, req.pkt) && Resident(c, h, Base(c, req.pkt.addr))
    ensures var (r, k) := ProcessReady(c, h, req);
            && CacheOk(c, r, init) && SameClient(h, r) && r.crashed == h.crashed && k.None? && r.queue == h.queue
            && Beyond(r) == multiset{req.id} + Beyond(h)
  {
    var l := GetLocation(c, req.pkt.addr);
    var b := Base(c, req.pkt.addr);
    assert GetLocation(c, b) == l.(offset := 0) by { BaseIsBase(c, req.pkt.addr); }
    var w := FindWay(h.blocks[l.index], l.tag);
    hide IsBase, RegionOk, HasRead, GetLocation, Base, Ids, MissIds, BlocksOk, CleanOk, Coherent, Legal, ServeOn,
         MshrOk, QueueOk, FindWay;
    assert DataOk(c, h, init);
    ServeKeeps(c, h, l.index, w, req, init);
    var r := ServeOn(c, h, l.index, w, req);
    ServedMshrOk(c, h, r);
    var q := r.trace[|h.trace|];
    assert r.trace == h.trace + [q];
    assert Ids(r.trace) == Ids(h.trace) + multiset{req.id} by {
      IdsAppend(h.trace, [q]);
      OneId(q);
    }
  }

  lemma ServedMshrOk(c: Config, h: Hier, r: Hier)
    requires Shaped(c, h) && Shaped(c, r) && MshrOk(c, h) && r == h.(blocks := r.blocks, trace := r.trace)
    requires forall x: Word :: IsBase(c, x) ==> Resident(c, r, x) == Resident(c, h, x)
    ensures MshrOk(c, r)
  {
    hide IsBase, Resident, SubOk, HasRead;
    forall i | 0 <= i < |h.mshr| ensures EntryOk(c, r, h.mshr[i]) {
      assert EntryOk(c, h, h.mshr[i]);
    }
  }

  /** A packet whose block is not resident. */
  lemma MissKeeps(c: Config, h: Hier, req: Req, init: Mem)
    requires CacheOk(c, h, init) && PacketOk(c, req.pkt) && !Resident(c, h, Base(c, req.pkt.addr))
    ensures var (r, ok) := ProcessMiss(c, h, req);
            && CacheOk(c, r, init) && SameClient(h, r) && r.crashed == h.crashed
            && (|r.queue| <= CAPACITY || r.queue == h.queue)
            && Beyond(r) == (if ok then multiset{req.id} else multiset{}) + Beyond(h)
  {
    var b := Base(c, req.pkt.addr);
    hide Base, RegionOk, HasRead, GetLocation, Ids, MissIds, BlocksOk, CleanOk, Coherent, Legal, MshrOk, QueueOk,
         ProcessMiss, PacketOk, Resident;
    if FindEntry(h.mshr, b) < |h.mshr| { MissJoins(c, h, req, b); } else { MissTakes(c, h, req, b); }
    var r := ProcessMiss(c, h, req).0;
    assert DataOk(c, h, init);
    PushKeepsData(c, h, r, init);
  }

  /** One ready packet is serviced, moved to the miss registers, or kept. */
  lemma ReadyKeeps(c: Config, h: Hier, req: Req, init: Mem)
    requires CacheOk(c, h, init) && PacketOk(c, req.pkt)
    ensures var (r, k) := ProcessReady(c, h, req);
            && CacheOk(c, r, init) && SameClient(h, r) && r.crashed == h.crashed
            && (|h.queue| <= CAPACITY ==> |r.queue| <= CAPACITY)
            && (k.Some? ==> k.value == req.(ready := h.now + 1))
            && Moved(k) + Beyond(r) == multiset{req.id} + Beyond(h)
  {
    hide CacheOk, PacketOk, Beyond, Moved, ProcessReady, ProcessMiss, GetLocation, FindWay, Base, Resident;
    OkShaped(c, h, init);
    if Resident(c, h, Base(c, req.pkt.addr)) {
      HitKeeps(c, h, req, init);
      MovedNone(Beyond(ProcessReady(c, h, req).0));
    } else {
      MissKeeps(c, h, req, init);
      MissIsProcess(c, h, req);
      MovedMiss(ProcessMiss(c, h, req).1, req, h.now + 1, Beyond(h));
    }
  }

  lemma OkShaped(c: Config, h: Hier, init: Mem)
    requires CacheOk(c, h, init)
    ensures ValidConfig(c) && Shaped(c, h)
  {
  }

  lemma MissIsProcess(c: Config, h: Hier, req: Req)
    requires ValidConfig(c) && Shaped(c, h) && !Resident(c, h, Base(c, req.pkt.addr))
    ensures var (r, ok) := ProcessMiss(c, h, req);
            ProcessReady(c, h, req) == (r, if ok then None else Some(req.(ready := h.now + 1)))
  {
    BaseIsBase(c, req.pkt.addr);
    hide ProcessMiss, GetLocation, Base, IsBase, BlockAddress;
  }

  lemma MovedNone(b: multiset<nat>)
    ensures Moved(None) + b == b
  {
  }

  lemma MovedMiss(ok: bool, req: Req, ready: nat, b: multiset<nat>)
    ensures Moved(if ok then None else Some(req.(ready := ready))) + ((if ok then multiset{req.id} else multiset{}) + b)
         == multiset{req.id} + b
  {
    if ok {} else {}
  }

  /** What a tick keeps: good packets, to be tried in the next cycle. */
  predicate KeptOk(c: Config, now: nat, kept: seq<Req>) {
    PendingOk(c, kept) && forall i :: 0 <= i < |kept| ==> kept[i].ready == now + 1
  }

  function Keep(kept: seq<Req>, k: Option<Req>): seq<Req> {
    if k.Some? then kept + [k.value] else kept
  }

  lemma KeepOk(c: Config, now: nat, kept: seq<Req>, req: Req, k: Option<Req>)
    requires KeptOk(c, now, kept) && PacketOk(c, req.pkt) && (k.Some? ==> k.value == req.(ready := now + 1))
    ensures KeptOk(c, now, Keep(kept, k))
  {
    hide PacketOk;
  }

  lemma {:induction false} ProcessAllKeeps(c: Config, h: Hier, todo: seq<Req>, init: Mem)
    requires CacheOk(c, h, init) && PendingOk(c, todo)
    ensures var (r, kept) := ProcessAll(c, h, todo);
            && CacheOk(c, r, init) && SameClient(h, r) && r.crashed == h.crashed
            && (|h.queue| <= CAPACITY ==> |r.queue| <= CAPACITY)
            && KeptOk(c, h.now, kept)
            && Ids(kept) + Beyond(r) == Ids(todo) + Beyond(h)
    decreases |todo|
  {
    hide CacheOk, ProcessReady, PacketOk, Beyond, Moved, Ids, KeptOk, PendingOk;
    OkShaped(c, h, init);
    if todo == [] {
      NothingKept(c, h.now);
    } else {
      var n := |todo| - 1;
      PrefixOk(c, todo);
      ProcessAllKeeps(c, h, todo[..n], init);
      var (h1, kept) := ProcessAll(c, h, todo[..n]);
      ReadyKeeps(c, h1, todo[n], init);
      var (h2, k) := ProcessReady(c, h1, todo[n]);
      assert ProcessAll(c, h, todo) == (h2, Keep(kept, k));
      KeepOk(c, h.now, kept, todo[n], k);
      KeepOne(kept, k);
      LastId(todo);
      MovedSum(Ids(kept), Moved(k), Beyond(h1), Beyond(h2), multiset{todo[n].id}, Ids(todo[..n]), Beyond(h));
      hide ProcessAll, Keep;
    }
  }

  lemma NothingKept(c: Config, now: nat)
    ensures KeptOk(c, now, [])
  {
  }

  lemma PrefixOk(c: Config, q: seq<Req>)
    requires PendingOk(c, q) && q != []
    ensures PendingOk(c, q[..|q| - 1]) && PacketOk(c, q[|q| - 1].pkt)
  {
    hide PacketOk;
  }

  lemma LastId(q: seq<Req>)
    requires q != []
    ensures Ids(q) == Ids(q[..|q| - 1]) + multiset{q[|q| - 1].id}
  {
  }

  lemma KeepOne(kept: seq<Req>, k: Option<Req>)
    ensures Ids(Keep(kept, k)) == Ids(kept) + Moved(k)
  {
    if k.Some? {
      assert (kept + [k.value])[..|kept|] == kept;
    }
  }

  lemma MovedSum(kept: multiset<nat>, moved: multiset<nat>, b1: multiset<nat>, b2: multiset<nat>,
                 one: multiset<nat>, todo: multiset<nat>, b: multiset<nat>)
    requires moved + b2 == one + b1 && kept + b1 == todo + b
    ensures kept + moved + b2 == todo + one + b
  {
    assert kept + moved + b2 == kept + (moved + b2);
    assert kept + (one + b1) == (kept + b1) + one;
    assert (todo + b) + one == todo + one + b;
  }

  /** The queue is sorted by ready time, and nothing waits longer than the delay. */
  predicate Disciplined(c: Config, h: Hier) {
    && (forall i, j :: 0 <= i < j < |h.pending| ==> h.pending[i].ready <= h.pending[j].ready)
    && (forall i :: 0 <= i < |h.pending| ==> h.pending[i].ready <= h.now + c.delay)
  }

  /** In a disciplined queue the ready packets are exactly a prefix, so dividing
      the queue into ready and waiting packets moves none of them. */
  lemma ReadyIsPrefix(c: Config, h: Hier, i: nat)
    requires Disciplined(c, h) && i < |h.pending|
    ensures h.pending[i].ready <= h.now <==> i < ReadyPrefix(h.pending, h.now)
  {
    var k := ReadyPrefix(h.pending, h.now);
    if i > k { assert h.pending[k].ready <= h.pending[i].ready; }
  }

  /** The packets kept by a tick are ready in the next cycle, before the rest. */
  lemma TickDiscipline(c: Config, h: Hier, k: nat, kept: seq<Req>, r: Hier)
    requires Disciplined(c, h) && k == ReadyPrefix(h.pending, h.now)
    requires forall i :: 0 <= i < |kept| ==> kept[i].ready == h.now + 1
    requires r.pending == kept + h.pending[k..] && r.now == h.now
    ensures Disciplined(c, r) && forall i :: 0 <= i < |r.pending| ==> r.pending[i].ready > r.now
  {
    RestWaits(c, h);
  }

  lemma TickIds(h: Hier, k: nat, kept: seq<Req>, h1: Hier, r: Hier)
    requires k <= |h.pending| && r.pending == kept + h.pending[k..] && r.mshr == h1.mshr && r.trace == h1.trace
    requires Ids(kept) + Beyond(h1) == Ids(h.pending[..k]) + Beyond(h)
    ensures Everywhere(r) == Everywhere(h)
  {
    hide Ids, Beyond, Everywhere;
    assert h.pending == h.pending[..k] + h.pending[k..];
    IdsAppend(h.pending[..k], h.pending[k..]);
    IdsAppend(kept, h.pending[k..]);
    EverywhereIs(h);
    EverywhereIs(r);
    BeyondSame(h1, r);
    TickSum(Ids(kept), Ids(h.pending[k..]), Beyond(h1), Ids(h.pending[..k]), Beyond(h));
  }

  /** A tick of the cache keeps the invariant, loses no packet, and leaves no
      packet ready. */
  lemma CacheTickKeeps(c: Config, h: Hier, init: Mem)
    requires CacheOk(c, h, init) && Disciplined(c, h)
    ensures var r := CacheTick(c, h);
            && CacheOk(c, r, init) && Disciplined(c, r) && r.crashed == h.crashed
            && (|h.queue| <= CAPACITY ==> |r.queue| <= CAPACITY)
            && Everywhere(r) == Everywhere(h) && r.accepted == h.accepted && r.now == h.now
            && (forall i :: 0 <= i < |r.pending| ==> r.pending[i].ready > r.now)
  {
    hide CacheOk, PacketOk, Ids, ProcessAll, Beyond, Everywhere, Disciplined, PendingOk;
    OkShaped(c, h, init);
    var k := ReadyPrefix(h.pending, h.now);
    var (h1, kept) := ProcessAll(c, h, h.pending[..k]);
    var r := CacheTick(c, h);
    RestOk(c, h, init, k);
    ProcessAllKeeps(c, h, h.pending[..k], init);
    TickDiscipline(c, h, k, kept, r);
    TickIds(h, k, kept, h1, r);
    PendingBoth(c, kept, h.pending[k..]);
    PendingChanged(c, h1, r, init);
  }

  lemma PendingBoth(c: Config, p: seq<Req>, q: seq<Req>)
    requires PendingOk(c, p) && PendingOk(c, q)
    ensures PendingOk(c, p + q)
  {
    hide PacketOk;
  }

  lemma EverywhereIs(h: Hier)
    ensures Everywhere(h) == Ids(h.pending) + Beyond(h)
  {
    hide Ids, MissIds;
  }

  lemma BeyondSame(h: Hier, r: Hier)
    requires r.mshr == h.mshr && r.trace == h.trace
    ensures Beyond(r) == Beyond(h)
  {
  }

  lemma TickSum(kept: multiset<nat>, rest: multiset<nat>, b1: multiset<nat>, todo: multiset<nat>, b: multiset<nat>)
    requires kept + b1 == todo + b
    ensures kept + rest + b1 == todo + rest + b
  {
    assert kept + rest + b1 == kept + b1 + rest;
    assert todo + rest + b == todo + b + rest;
  }

  lemma RestOk(c: Config, h: Hier, init: Mem, k: nat)
    requires CacheOk(c, h, init) && k <= |h.pending|
    ensures PendingOk(c, h.pending[..k]) && PendingOk(c, h.pending[k..])
  {
    hide PacketOk;
  }

  lemma RestWaits(c: Config, h: Hier)
    requires Disciplined(c, h)
    ensures var k := ReadyPrefix(h.pending, h.now);
            forall i :: k <= i < |h.pending| ==> h.pending[i].ready > h.now
  {
    forall i | ReadyPrefix(h.pending, h.now) <= i < |h.pending| ensures h.pending[i].ready > h.now {
      ReadyIsPrefix(c, h, i);
    }
  }

  predicate DataSame(c: Config, h: Hier, r: Hier) {
    r == h.(pending := r.pending, now := r.now, accepted := r.accepted)
  }

  lemma PendingChanged(c: Config, h: Hier, r: Hier, init: Mem)
    requires CacheOk(c, h, init) && DataSame(c, h, r) && PendingOk(c, r.pending)
    ensures CacheOk(c, r, init)
  {
    hide GetLocation, RegionOk, Drained, ReadBytes, FindWay, Legal, Replay, QueueOk, PacketOk, InRange, AddrOf, IsBase,
         HasRead, SubOk;
    assert Coherent(c, r, Replay(init, r.trace)) by {
      forall b: Word | IsBase(c, b) ensures BlockData(c, r, b) == ReadBytes(Replay(init, r.trace), b, c.blkSize) {
        assert BlockData(c, h, b) == ReadBytes(Replay(init, h.trace), b, c.blkSize);
      }
    }
    assert MshrOk(c, r) by {
      forall i | 0 <= i < |r.mshr| ensures EntryOk(c, r, r.mshr[i]) { assert EntryOk(c, h, h.mshr[i]); }
    }
  }

  // --------------------------------------------------------------------- runs

  datatype CacheEvent =
    | Submitted(pkt: Packet)
    | MemoryServes(choice: nat)
    | CacheTicks
    | TimePasses

  /** One event. Main memory serves its front packet only when it is ready. */
  function NextHier(c: Config, h: Hier, lookup: Lookup, e: CacheEvent): (r: Hier)
    requires Shaped(c, h)
    ensures Shaped(c, r)
  {
    if h.crashed then h
    else match e
      case Submitted(pkt) => Submit(c, h, pkt).0
      case MemoryServes(choice) =>
        if h.queue != [] && h.queue[0].ready <= h.now then MemServe(c, h, lookup, choice) else h
      case CacheTicks => CacheTick(c, h)
      case TimePasses => h.(now := h.now + 1)
  }

  function RunHier(c: Config, h: Hier, lookup: Lookup, es: seq<CacheEvent>): (r: Hier)
    requires Shaped(c, h)
    ensures Shaped(c, r)
    decreases |es|
  {
    if es == [] then h else NextHier(c, RunHier(c, h, lookup, es[..|es| - 1]), lookup, es[|es| - 1])
  }

  /** An empty cache over memory `init`. */
  function StartHier(c: Config, init: Mem): (h: Hier)
    ensures Shaped(c, h)
  {
    Hier(seq(c.numSets, _ => seq(c.assoc, _ => Block(false, false, 0, seq<Byte>(c.blkSize, _ => 0)))),
         [], seq(c.entries, _ => Entry(false, 0, false, EmptySubs(c.subentries))),
         init, [], 0, 0, [], false)
  }

  predicate EventOk(c: Config, e: CacheEvent) {
    e.Submitted? ==> PacketOk(c, e.pkt)
  }

  ghost predicate HierOk(c: Config, h: Hier, init: Mem) {
    CacheOk(c, h, init) && Disciplined(c, h) && Conserved(h) && !h.crashed && |h.queue| <= CAPACITY
  }

  lemma StartOk(c: Config, init: Mem)
    requires ValidConfig(c)
    ensures HierOk(c, StartHier(c, init), init)
  {
    hide GetLocation, Base, ReadBytes, ValidConfig;
    var h := StartHier(c, init);
    StartEntries(c, c.entries);
    forall i, tag | 0 <= i < c.numSets ensures FindWay(h.blocks[i], tag) == c.assoc { NoWay(h.blocks[i], tag); }
    assert h.trace == [] && Replay(init, []) == init;
    assert Drained(h.store, h.queue) == init;
  }

  lemma {:induction false} StartEntries(c: Config, n: nat)
    ensures MissIds(seq(n, _ => Entry(false, 0, false, EmptySubs(c.subentries)))) == multiset{}
  {
    if n > 0 {
      var e := Entry(false, 0, false, EmptySubs(c.subentries));
      assert seq(n, _ => e)[..n - 1] == seq(n - 1, _ => e);
      StartEntries(c, n - 1);
      NothingWaits(e.subs);
      NoIds();
    }
  }

  lemma SubmitKeeps(c: Config, h: Hier, pkt: Packet, init: Mem)
    requires HierOk(c, h, init) && PacketOk(c, pkt)
    ensures HierOk(c, Submit(c, h, pkt).0, init)
  {
    hide CacheOk, PacketOk, Ids, MissIds;
    if |h.pending| < CAPACITY {
      var r := Submit(c, h, pkt).0;
      assert r.pending[..|h.pending|] == h.pending;
      SubmitIds(h, r);
      assert PendingOk(c, r.pending) by { PendingBefore(c, h, init); }
      PendingChanged(c, h, r, init);
    }
  }

  lemma PendingBefore(c: Config, h: Hier, init: Mem)
    requires CacheOk(c, h, init)
    ensures PendingOk(c, h.pending)
  {
    hide PacketOk;
  }

  lemma SubmitIds(h: Hier, r: Hier)
    requires Conserved(h) && r.accepted == h.accepted + 1 && r.mshr == h.mshr && r.trace == h.trace
    requires |r.pending| == |h.pending| + 1 && r.pending[..|h.pending|] == h.pending
             && r.pending[|h.pending|].id == h.accepted
    ensures Conserved(r)
  {
    hide MissIds;
    assert Ids(r.pending) == Ids(h.pending) + multiset{h.accepted};
    assert Ids(r.pending) + MissIds(r.mshr) + Ids(r.trace) == Ids(h.pending) + MissIds(h.mshr) + Ids(h.trace)
           + multiset{h.accepted};
  }

  lemma EventKeepsHier(c: Config, h: Hier, e: CacheEvent, init: Mem)
    requires HierOk(c, h, init) && EventOk(c, e) && Shaped(c, h)
    ensures HierOk(c, NextHier(c, h, Comparing, e), init)
  {
    hide CacheOk, MemServe, CacheTick, Ids, MissIds, PacketOk;
    match e
    case Submitted(pkt) => SubmitKeeps(c, h, pkt, init);
    case MemoryServes(choice) => if h.queue != [] { MemServeKeeps(c, h, choice, init); }
    case CacheTicks => CacheTickKeeps(c, h, init);
    case TimePasses =>
      PendingBefore(c, h, init);
      PendingChanged(c, h, h.(now := h.now + 1), init);
  }

  /** The services of the cache are those of a flat memory. However requests,
      services, ticks and victims interleave, and however many requests are
      outstanding: every serviced read returned what a flat memory would hold at
      its turn, the cache with its memory now holds exactly that flat memory, no
      packet is lost or answered twice, and no assertion fails. In which order
      packets get their turn is the subject of the module CacheOrder. */
  lemma {:induction false} ServicesAreFlat(c: Config, init: Mem, es: seq<CacheEvent>)
    requires ValidConfig(c) && forall k :: 0 <= k < |es| ==> EventOk(c, es[k])
    ensures var h := RunHier(c, StartHier(c, init), Comparing, es);
            && Legal(init, h.trace) && Coherent(c, h, Replay(init, h.trace))
            && Conserved(h) && !h.crashed
            && HierOk(c, h, init)
    decreases |es|
  {
    hide Legal, Coherent, Conserved, NextHier, EventOk, ValidConfig, Replay, StartHier;
    if es == [] {
      StartOk(c, init);
    } else {
      var n := |es| - 1;
      ServicesAreFlat(c, init, es[..n]);
      EventKeepsHier(c, RunHier(c, StartHier(c, init), Comparing, es[..n]), es[n], init);
    }
  }
}
