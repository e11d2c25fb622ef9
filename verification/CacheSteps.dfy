/** Whole steps: memory services, cache ticks and submissions. */
module CacheSteps {
  import opened Words
  import opened Isa
  import opened Packets
  import opened Geometry
  import opened CacheSpec
  import opened CacheInvariant
  import opened CacheProofs
  import opened CacheFrames

  /** Where the accepted packets are. */
  function Everywhere(h: Hier): multiset<nat> {
    Ids(h.pending) + MissIds(h.mshr) + Ids(h.trace)
  }

  /** Serving packets changes no residence, so no miss. */
  lemma ServedMshr(c: Config, h: Hier, r: Hier, b: Word)
    requires Shaped(c, h) && Shaped(c, r) && MshrBut(c, h, b)
    requires r == h.(blocks := r.blocks, trace := r.trace)
    requires forall x: Word :: IsBase(c, x) ==> Resident(c, r, x) == Resident(c, h, x)
    ensures MshrBut(c, r, b)
  {
    hide IsBase, Resident, SubOk, RegionOk, HasRead;
    forall i | 0 <= i < |h.mshr| && !HoldsMiss(h.mshr[i], b) ensures EntryOk(c, r, h.mshr[i]) {
      assert EntryOk(c, h, h.mshr[i]);
    }
  }

  /** The state in which the read of block `b` has just been answered. */
  ghost predicate Answering(c: Config, h: Hier, b: Word, init: Mem) {
    && ValidConfig(c) && Shaped(c, h) && DataOk(c, h, init) && PendingOk(c, h.pending)
    && IsBase(c, b) && RegionOk(c, b) && !Resident(c, h, b)
    && MshrBut(c, h, b) && QueueOk(c, h.mshr, h.queue)
    && (forall k :: 0 <= k < |h.queue| ==> h.queue[k].pkt.addr != b)
    && FindEntry(h.mshr, b) < |h.mshr|
  }

  /** The entry of an answered miss. */
  function Freed(c: Config): Entry {
    Entry(false, 0, false, EmptySubs(c.subentries))
  }

  /** The entry of block `b` is free and the packets that waited in it have been
      serviced, in the order in which they joined it, and no others. */
  predicate Answered(c: Config, h: Hier, b: Word, r: Hier) {
    var i := FindEntry(h.mshr, b);
    && i < |h.mshr| && ServesNext(h.trace, Waiting(h.mshr[i].subs), r.trace) && r.mshr == h.mshr[i := Freed(c)]
  }

  lemma AllFit(c: Config, b: Word, reqs: seq<Req>)
    requires AllOf(c, b, reqs)
    ensures forall k :: 0 <= k < |reqs| ==> Fits(c, reqs[k].pkt)
  {
    hide Fits, RegionOk, Base;
  }

  /** After the block is placed: its waiting packets are serviced and the entry
      is released. */
  lemma ServeAndRelease(c: Config, h: Hier, i: nat, w: nat, b: Word, init: Mem)
    requires ValidConfig(c) && Shaped(c, h) && DataOk(c, h, init) && PendingOk(c, h.pending)
    requires w < c.assoc && Holding(c, h, GetLocation(c, b).index, w, b) && MshrBut(c, h, b)
             && QueueOk(c, h.mshr, h.queue)
    requires forall k :: 0 <= k < |h.queue| ==> h.queue[k].pkt.addr != b
    requires i < |h.mshr| && HoldsMiss(h.mshr[i], b)
    ensures var h2 := ServeAll(c, h, GetLocation(c, b).index, w, Waiting(h.mshr[i].subs));
            var r := SetEntry(c, h2, i, Entry(false, 0, false, EmptySubs(c.subentries)));
            && CacheOk(c, r, init) && Everywhere(r) == Everywhere(h) && r.accepted == h.accepted && r.now == h.now
            && r.crashed == h.crashed && r.queue == h.queue && r.pending == h.pending
            && ServesNext(h.trace, Waiting(h.mshr[i].subs), r.trace) && r.mshr == h.mshr[i := Freed(c)]
  {
    hide DataOk, GetLocation, Base, IsBase, RegionOk, Resident, ServeAll, MshrBut, QueueOk, Drained, Ids, MissIds,
         Holding, EntryOk, PacketOk, CacheOk, Everywhere, ServesNext;
    var reqs := Waiting(h.mshr[i].subs);
    var h2 := ServeAll(c, h, GetLocation(c, b).index, w, reqs);
    var e := Entry(false, 0, false, EmptySubs(c.subentries));
    var r := SetEntry(c, h2, i, e);
    EntryWaits(c, h, i, b);
    ServeAllKeeps(c, h, GetLocation(c, b).index, w, reqs, b, init);
    assert ServesNext(h.trace, reqs, h2.trace) by {
      AllFit(c, b, reqs);
      ServeAllTrace(c, h, GetLocation(c, b).index, w, reqs);
    }
    ServedMshr(c, h, h2, b);
    ClearEntry(c, h2, i, b);
    ClearedKeeps(c, h2, i, e, init);
    assert Waiting(e.subs) == [] by { NothingWaits(e.subs); }
    MissIdsUpdate(h2.mshr, i, e);
    EverywhereFill(h, h2, r, Ids(reqs)) by { assert Ids([]) == multiset{} by { NoIds(); } }
  }

  /** There is always room for the write-back, because the read being answered
      has just left the queue. */
  lemma WriteBackAccepted(c: Config, h: Hier, i: nat, w: nat)
    requires BlocksOk(c, h) && i < c.numSets && w < c.assoc && |h.queue| < CAPACITY && !h.crashed
    ensures var r := WriteBack(c, h, i, w);
            !r.crashed && |h.queue| <= |r.queue| <= |h.queue| + 1
  {
    hide GetAddress, InRange, RegionIndex;
    if h.blocks[i][w].valid {
      assert TagOk(c, h.blocks[i][w].tag, i);
    }
  }

  lemma PlacedAccepted(c: Config, h: Hier, pkt: Packet, choice: nat)
    requires Shaped(c, h) && BlocksOk(c, h) && |pkt.data| == c.blkSize && |h.queue| < CAPACITY && !h.crashed
    ensures var r := Placed(c, h, pkt, choice).0;
            !r.crashed && |r.queue| <= CAPACITY
  {
    assert Shaped(c, h);
    hide BlocksOk, WriteBack, GetLocation;
    var l := GetLocation(c, pkt.addr);
    WriteBackAccepted(c, h, l.index, VictimWay(h.blocks[l.index], choice));
  }

  /** The answer to a block read: the victim is written back, the block comes in,
      and exactly the packets that waited for it are serviced, in order. No
      assertion fails on the way. */
  lemma FillKeeps(c: Config, h: Hier, pkt: Packet, choice: nat, init: Mem)
    requires Answering(c, h, pkt.addr, init) && !h.crashed && |h.queue| < CAPACITY
    requires |pkt.data| == c.blkSize && pkt.data == ReadBytes(Drained(h.store, h.queue), pkt.addr, c.blkSize)
    ensures var r := Fill(c, h, Comparing, pkt, choice);
            && CacheOk(c, r, init) && !r.crashed && |r.queue| <= CAPACITY
            && Everywhere(r) == Everywhere(h) && r.accepted == h.accepted && r.now == h.now && r.pending == h.pending
            && Answered(c, h, pkt.addr, r)
  {
    assert BlocksOk(c, h);
    hide DataOk, GetLocation, Base, IsBase, RegionOk, Resident, Placed, ServeAll, MshrBut, QueueOk, Evicted, Drained,
         Ids, MissIds, Holding, EntryOk, SetEntry, PacketOk, CacheOk, BlocksOk, ServesNext;
    var b := pkt.addr;
    var (h1, w) := Placed(c, h, pkt, choice);
    PlacedAccepted(c, h, pkt, choice);
    PlacedKeepsHere(c, h, pkt, choice, init);
    PlacedMshr(c, h, h1, b);
    PlacedQueue(c, h, h1, b);
    ServeAndRelease(c, h1, FindEntry(h.mshr, b), w, b, init);
  }

  lemma PlacedKeepsHere(c: Config, h: Hier, pkt: Packet, choice: nat, init: Mem)
    requires Answering(c, h, pkt.addr, init)
    requires |pkt.data| == c.blkSize && pkt.data == ReadBytes(Drained(h.store, h.queue), pkt.addr, c.blkSize)
    ensures var (r, v) := Placed(c, h, pkt, choice);
            !r.crashed ==>
              && DataOk(c, r, init) && Holding(c, r, GetLocation(c, pkt.addr).index, v, pkt.addr)
              && r == h.(blocks := r.blocks, queue := r.queue)
              && (forall x: Word :: IsBase(c, x) && Resident(c, r, x) ==> Resident(c, h, x) || x == pkt.addr)
              && Evicted(c, h, r, pkt.addr)
  {
    PlacedKeeps(c, h, pkt, choice, init);
    hide *;
  }

  lemma EntryWaits(c: Config, h: Hier, i: nat, b: Word)
    requires Shaped(c, h) && MshrBut(c, h, b) && i < |h.mshr| && HoldsMiss(h.mshr[i], b)
    ensures AllOf(c, b, Waiting(h.mshr[i].subs))
  {
    hide SubOk, Resident, EntryOk;
    WaitingOf(c, b, h.mshr[i].subs);
  }

  lemma ClearedKeeps(c: Config, h: Hier, i: nat, e: Entry, init: Mem)
    requires ValidConfig(c) && Shaped(c, h) && i < c.entries && |e.subs| == c.subentries
    requires DataOk(c, h, init) && PendingOk(c, h.pending)
    requires var r := SetEntry(c, h, i, e); MshrOk(c, r) && QueueOk(c, r.mshr, r.queue)
    ensures CacheOk(c, SetEntry(c, h, i, e), init)
  {
    hide GetLocation, RegionOk, Drained, ReadBytes, FindWay, Legal, Replay, QueueOk, MshrOk, PacketOk, InRange, AddrOf,
         IsBase;
    var r := SetEntry(c, h, i, e);
    assert Coherent(c, r, Replay(init, r.trace)) by {
      forall b: Word | IsBase(c, b) ensures BlockData(c, r, b) == ReadBytes(Replay(init, r.trace), b, c.blkSize) {
        assert BlockData(c, h, b) == ReadBytes(Replay(init, h.trace), b, c.blkSize);
      }
    }
  }

  lemma EverywhereFill(h: Hier, h2: Hier, r: Hier, ids: multiset<nat>)
    requires r.pending == h2.pending == h.pending && r.trace == h2.trace && h2.mshr == h.mshr
    requires Ids(h2.trace) == Ids(h.trace) + ids && MissIds(r.mshr) + ids == MissIds(h2.mshr) + multiset{}
    ensures Everywhere(r) == Everywhere(h)
  {
    hide Ids, MissIds;
    assert MissIds(h.mshr) == MissIds(r.mshr) + ids;
  }

  // ------------------------------------------------------------- memory serves

  /** Taking the front packet off the queue changes no contents. */
  lemma PopKeepsData(c: Config, h: Hier, init: Mem)
    requires Shaped(c, h) && DataOk(c, h, init) && h.queue != []
    ensures DataOk(c, h.(queue := h.queue[1..], store := After(h.store, h.queue[0].pkt)), init)
  {
    hide GetLocation, RegionOk, ReadBytes, FindWay, Legal, Replay, InRange, AddrOf, IsBase, After, Drained;
    var r := h.(queue := h.queue[1..], store := After(h.store, h.queue[0].pkt));
    DrainedFront(h.store, h.queue);
    assert Coherent(c, r, Replay(init, r.trace)) by {
      forall b: Word | IsBase(c, b) ensures BlockData(c, r, b) == ReadBytes(Replay(init, r.trace), b, c.blkSize) {
        assert BlockData(c, h, b) == ReadBytes(Replay(init, h.trace), b, c.blkSize);
      }
    }
  }

  lemma PopQueue(c: Config, mshr: seq<Entry>, queue: seq<Req>)
    requires QueueOk(c, mshr, queue) && queue != []
    ensures QueueOk(c, mshr, queue[1..])
    ensures !queue[0].pkt.isWrite ==> forall k :: 0 <= k < |queue[1..]| ==> queue[1..][k].pkt.addr != queue[0].pkt.addr
  {
    hide QueueItemOk;
  }

  /** The entries still have their reads, except the one being answered. */
  lemma PopMshr(c: Config, h: Hier, r: Hier)
    requires Shaped(c, h) && Shaped(c, r) && MshrOk(c, h) && QueueOk(c, h.mshr, h.queue) && h.queue != []
    requires r == h.(queue := h.queue[1..], store := r.store)
    ensures h.queue[0].pkt.isWrite ==> MshrOk(c, r)
    ensures !h.queue[0].pkt.isWrite ==> MshrBut(c, r, h.queue[0].pkt.addr)
  {
    hide IsBase, SubOk, RegionOk, GetLocation, FindWay;
    var b := h.queue[0].pkt.addr;
    forall i | 0 <= i < |h.mshr| && (h.queue[0].pkt.isWrite || !HoldsMiss(h.mshr[i], b))
      ensures EntryOk(c, r, h.mshr[i])
    {
      var e := h.mshr[i];
      assert EntryOk(c, h, e);
      if e.valid {
        var k :| 0 <= k < |h.queue| && IsRead(h.queue[k], e.address);
        assert k > 0;
        assert IsRead(r.queue[k - 1], e.address);
      }
    }
    forall i | 0 <= i < |h.mshr| && HoldsMiss(h.mshr[i], b)
      ensures forall j :: 0 <= j < |h.mshr[i].subs| ==> SubOk(c, b, h.mshr[i].subs[j])
    {
      assert EntryOk(c, h, h.mshr[i]);
    }
  }

  /** A queued read belongs to a miss whose block is not resident. */
  lemma ReadIsMiss(c: Config, h: Hier)
    requires Shaped(c, h) && MshrOk(c, h) && QueueOk(c, h.mshr, h.queue) && h.queue != [] && !h.queue[0].pkt.isWrite
    ensures var p := h.queue[0].pkt;
            && IsBase(c, p.addr) && RegionOk(c, p.addr) && p.size == c.blkSize
            && !Resident(c, h, p.addr) && FindEntry(h.mshr, p.addr) < |h.mshr|
  {
    hide IsBase, SubOk, RegionOk, Resident, HasRead;
    var p := h.queue[0].pkt;
    assert QueueItemOk(c, h.mshr, h.queue[0]);
    var i :| 0 <= i < |h.mshr| && HoldsMiss(h.mshr[i], p.addr);
    assert EntryOk(c, h, h.mshr[i]);
  }

  /** A queued request lies in its region, so servicing it is no fault. */
  lemma FrontIsMapped(c: Config, h: Hier, k: nat)
    requires QueueOk(c, h.mshr, h.queue) && k < |h.queue|
    ensures Mapped(h.queue[k].pkt.addr, h.queue[k].pkt.size)
  {
    assert QueueItemOk(c, h.mshr, h.queue[k]);
    hide IsBase, HasEntry, Mapped;
  }

  lemma MemReadKeeps(c: Config, h: Hier, choice: nat, init: Mem)
    requires CacheOk(c, h, init) && h.queue != [] && !h.queue[0].pkt.isWrite && !h.crashed && |h.queue| <= CAPACITY
    ensures var r := MemServe(c, h, Comparing, choice);
            && CacheOk(c, r, init) && !r.crashed && |r.queue| <= CAPACITY
            && Everywhere(r) == Everywhere(h) && r.accepted == h.accepted && r.now == h.now && r.pending == h.pending
            && Answered(c, h, h.queue[0].pkt.addr, r)
  {
    hide BlocksOk, CleanOk, Coherent, Legal, Replay, QueueOk, MshrOk, IsBase, RegionOk, Resident, MshrBut, Fill,
         Drained, Ids, MissIds, EntryOk, PacketOk, ReadBytes, Mapped, ServesNext;
    FrontIsMapped(c, h, 0);
    var q := h.queue[0];
    var h1 := h.(queue := h.queue[1..]);
    assert After(h.store, q.pkt) == h.store;
    assert DataOk(c, h, init);
    PopKeepsData(c, h, init);
    assert h.(queue := h.queue[1..], store := h.store) == h1;
    PopQueue(c, h.mshr, h.queue);
    PopMshr(c, h, h1);
    ReadIsMiss(c, h);
    SameResident(c, h, h1, q.pkt.addr);
    assert Answering(c, h1, q.pkt.addr, init);
    NothingQueued(c, h1, q.pkt.addr);
    FillKeeps(c, h1, q.pkt.(data := ReadBytes(h.store, q.pkt.addr, q.pkt.size)), choice, init);
  }

  lemma SameResident(c: Config, h: Hier, r: Hier, b: Word)
    requires Shaped(c, h) && Shaped(c, r) && r.blocks == h.blocks
    ensures Resident(c, r, b) == Resident(c, h, b)
  {
  }

  lemma NothingQueued(c: Config, h: Hier, b: Word)
    requires ValidConfig(c) && IsBase(c, b) && QueueOk(c, h.mshr, h.queue)
    requires forall k :: 0 <= k < |h.queue| ==> h.queue[k].pkt.addr != b
    ensures ReadBytes(h.store, b, c.blkSize) == ReadBytes(Drained(h.store, h.queue), b, c.blkSize)
  {
    hide IsBase, QueueItemOk, ReadBytes, Drained;
    DrainedElsewhere(c, h.mshr, h.store, h.queue, b);
  }

  lemma MemWriteKeeps(c: Config, h: Hier, choice: nat, init: Mem)
    requires CacheOk(c, h, init) && h.queue != [] && h.queue[0].pkt.isWrite
    ensures var r := MemServe(c, h, Comparing, choice);
            && CacheOk(c, r, init) && Everywhere(r) == Everywhere(h) && r.accepted == h.accepted && r.now == h.now
            && r.crashed == h.crashed && |r.queue| < |h.queue| && r.pending == h.pending
            && r.trace == h.trace && r.mshr == h.mshr
  {
    hide BlocksOk, CleanOk, Coherent, Legal, Replay, MshrOk, IsBase, RegionOk, Drained, Ids, MissIds, PacketOk,
         ReadBytes, After, GetLocation, HasEntry, Mapped;
    FrontIsMapped(c, h, 0);
    var r := MemServe(c, h, Comparing, choice);
    assert DataOk(c, h, init);
    PopKeepsData(c, h, init);
    PopQueue(c, h.mshr, h.queue);
    PopMshr(c, h, r);
    assert QueueItemOk(c, h.mshr, h.queue[0]);
  }

  /** Main memory serving its next packet keeps the invariant. */
  lemma MemServeKeeps(c: Config, h: Hier, choice: nat, init: Mem)
    requires CacheOk(c, h, init) && h.queue != [] && !h.crashed && |h.queue| <= CAPACITY
    ensures var r := MemServe(c, h, Comparing, choice);
            && CacheOk(c, r, init) && !r.crashed && |r.queue| <= CAPACITY
            && Everywhere(r) == Everywhere(h) && r.accepted == h.accepted && r.now == h.now && r.pending == h.pending
            && if h.queue[0].pkt.isWrite then r.trace == h.trace && r.mshr == h.mshr
               else Answered(c, h, h.queue[0].pkt.addr, r)
  {
    hide CacheOk, MemServe, Everywhere, Answered;
    if h.queue[0].pkt.isWrite { MemWriteKeeps(c, h, choice, init); } else { MemReadKeeps(c, h, choice, init); }
  }

  // -------------------------------------------------------------------- misses

  lemma {:induction false} WaitingInsert(subs: seq<SubEntry>, j: nat, req: Req)
    requires j < |subs| && !subs[j].valid
    ensures Ids(Waiting(subs[j := SubEntry(true, Some(req))])) == Ids(Waiting(subs)) + multiset{req.id}
    decreases |subs|
  {
    hide Ids, WaitingIn;
    var n := |subs| - 1;
    var s := SubEntry(true, Some(req));
    var t := subs[j := s];
    var last := Ids(WaitingIn(subs[n]));
    IdsAppend(Waiting(subs[..n]), WaitingIn(subs[n]));
    IdsAppend(Waiting(t[..n]), WaitingIn(t[n]));
    if j < n {
      assert t[..n] == subs[..n][j := s] && t[n] == subs[n];
      WaitingInsert(subs[..n], j, req);
      assert Ids(Waiting(t[..n])) + last == Ids(Waiting(subs[..n])) + last + multiset{req.id};
    } else {
      assert t[..n] == subs[..n];
      InsertedId(subs[n], req);
    }
  }

  lemma InsertedId(was: SubEntry, req: Req)
    requires !was.valid
    ensures Ids(WaitingIn(SubEntry(true, Some(req)))) == multiset{req.id} && Ids(WaitingIn(was)) == multiset{}
  {
    OneId(req);
    NoIds();
  }

  lemma {:induction false} WaitingUntouched(subs: seq<SubEntry>, j: nat, s: SubEntry)
    requires j < |subs| && !subs[j].valid && !s.valid
    ensures Waiting(subs[j := s]) == Waiting(subs)
    decreases |subs|
  {
    var n := |subs| - 1;
    if j < n {
      assert subs[j := s][..n] == subs[..n][j := s];
      WaitingUntouched(subs[..n], j, s);
    } else {
      assert subs[j := s][..n] == subs[..n];
    }
  }

  lemma OneId(req: Req)
    ensures Ids([req]) == multiset{req.id}
  {
    assert [req][..0] == [];
    NoIds();
  }

  lemma {:induction false} IdsAppend(p: seq<Req>, q: seq<Req>)
    ensures Ids(p + q) == Ids(p) + Ids(q)
    decreases |q|
  {
    if q == [] {
      assert p + q == p;
    } else {
      var n := |q| - 1;
      assert (p + q)[..|p| + n] == p + q[..n];
      IdsAppend(p, q[..n]);
    }
  }

  /** A queued block read changes no contents. */
  lemma PushKeepsData(c: Config, h: Hier, r: Hier, init: Mem)
    requires Shaped(c, h) && Shaped(c, r) && DataOk(c, h, init)
    requires r.blocks == h.blocks && r.store == h.store && r.trace == h.trace
    requires r.queue == h.queue || (|r.queue| == |h.queue| + 1 && r.queue[..|h.queue|] == h.queue
             && !r.queue[|h.queue|].pkt.isWrite)
    ensures DataOk(c, r, init)
  {
    hide GetLocation, RegionOk, ReadBytes, FindWay, Legal, Replay, InRange, AddrOf, IsBase, Drained;
    if r.queue != h.queue {
      assert r.queue == h.queue + [r.queue[|h.queue|]];
      DrainedPush(h.store, h.queue, r.queue[|h.queue|]);
    }
    assert Coherent(c, r, Replay(init, r.trace)) by {
      forall b: Word | IsBase(c, b) ensures BlockData(c, r, b) == ReadBytes(Replay(init, r.trace), b, c.blkSize) {
        assert BlockData(c, h, b) == ReadBytes(Replay(init, h.trace), b, c.blkSize);
      }
    }
  }

  /** An entry of block `b`: a packet joins it. */
  lemma JoinEntry(c: Config, h: Hier, i: nat, e: Entry, b: Word)
    requires Shaped(c, h) && MshrOk(c, h) && QueueOk(c, h.mshr, h.queue) && i < |h.mshr| && |e.subs| == c.subentries
    requires HoldsMiss(h.mshr[i], b) && e == h.mshr[i].(subs := e.subs)
    requires forall j :: 0 <= j < |e.subs| ==> SubOk(c, b, e.subs[j])
    ensures var r := SetEntry(c, h, i, e);
            MshrOk(c, r) && QueueOk(c, r.mshr, r.queue)
  {
    hide IsBase, SubOk, RegionOk, HasRead, GetLocation, FindWay;
    var r := SetEntry(c, h, i, e);
    forall k | 0 <= k < |h.queue| ensures QueueItemOk(c, r.mshr, h.queue[k]) {
      assert QueueItemOk(c, h.mshr, h.queue[k]);
      if !h.queue[k].pkt.isWrite {
        var j :| 0 <= j < |h.mshr| && HoldsMiss(h.mshr[j], h.queue[k].pkt.addr);
        assert HoldsMiss(r.mshr[j], h.queue[k].pkt.addr);
      }
    }
    forall j | 0 <= j < |r.mshr| ensures EntryOk(c, r, r.mshr[j]) {
      assert EntryOk(c, h, h.mshr[j]);
    }
  }

  /** A free entry that stays free. */
  lemma TouchEntry(c: Config, h: Hier, i: nat, e: Entry)
    requires Shaped(c, h) && MshrOk(c, h) && QueueOk(c, h.mshr, h.queue) && i < |h.mshr| && |e.subs| == c.subentries
    requires !h.mshr[i].valid && !e.valid && !e.issued && NoneValid(e.subs)
    ensures var r := SetEntry(c, h, i, e);
            MshrOk(c, r) && QueueOk(c, r.mshr, r.queue)
  {
    hide IsBase, SubOk, RegionOk, HasRead, GetLocation, FindWay;
    var r := SetEntry(c, h, i, e);
    forall k | 0 <= k < |h.queue| ensures QueueItemOk(c, r.mshr, h.queue[k]) {
      assert QueueItemOk(c, h.mshr, h.queue[k]);
      if !h.queue[k].pkt.isWrite {
        var j :| 0 <= j < |h.mshr| && HoldsMiss(h.mshr[j], h.queue[k].pkt.addr);
        assert HoldsMiss(r.mshr[j], h.queue[k].pkt.addr);
      }
    }
    forall j | 0 <= j < |r.mshr| ensures EntryOk(c, r, r.mshr[j]) {
      assert EntryOk(c, h, h.mshr[j]);
    }
  }

  /** A free entry is taken for block `b` and its read is queued. */
  lemma TakeEntry(c: Config, h: Hier, r: Hier, i: nat, e: Entry, b: Word, q: Req)
    requires Shaped(c, h) && Shaped(c, r) && MshrOk(c, h) && QueueOk(c, h.mshr, h.queue) && i < |h.mshr|
    requires !h.mshr[i].valid && e.valid && e.issued && e.address == b && |e.subs| == c.subentries
    requires forall j :: 0 <= j < |e.subs| ==> SubOk(c, b, e.subs[j])
    requires IsBase(c, b) && RegionOk(c, b) && !Resident(c, h, b) && FindEntry(h.mshr, b) == |h.mshr|
    requires IsRead(q, b) && q.pkt.size == |q.pkt.data| == c.blkSize
    requires r.blocks == h.blocks && r.queue == h.queue + [q] && r.mshr == h.mshr[i := e]
    ensures MshrOk(c, r) && QueueOk(c, r.mshr, r.queue)
  {
    hide IsBase, SubOk, RegionOk, GetLocation, FindWay;
    assert HoldsMiss(r.mshr[i], b);
    forall k | 0 <= k < |r.queue| ensures QueueItemOk(c, r.mshr, r.queue[k]) {
      if k < |h.queue| {
        assert QueueItemOk(c, h.mshr, h.queue[k]);
        if !h.queue[k].pkt.isWrite {
          var j :| 0 <= j < |h.mshr| && HoldsMiss(h.mshr[j], h.queue[k].pkt.addr);
          assert HoldsMiss(r.mshr[j], h.queue[k].pkt.addr);
        }
      }
    }
    forall k | 0 <= k < |h.queue| && !h.queue[k].pkt.isWrite ensures h.queue[k].pkt.addr != b {
      assert QueueItemOk(c, h.mshr, h.queue[k]);
    }
    forall j | 0 <= j < |r.mshr| ensures EntryOk(c, r, r.mshr[j]) {
      assert EntryOk(c, h, h.mshr[j]);
      if j == i {
        assert IsRead(r.queue[|h.queue|], b);
      } else if h.mshr[j].valid {
        var k :| 0 <= k < |h.queue| && IsRead(h.queue[k], h.mshr[j].address);
        assert IsRead(r.queue[k], h.mshr[j].address);
      }
    }
  }

  /** What a step of the cache leaves alone. */
  predicate SameClient(h: Hier, r: Hier) {
    r.pending == h.pending && r.accepted == h.accepted && r.now == h.now && r.store == h.store
  }

  lemma NewSub(c: Config, b: Word, e: Entry, j: nat, req: Req)
    requires j < |e.subs| && PacketOk(c, req.pkt) && Base(c, req.pkt.addr) == b
    requires forall k :: 0 <= k < |e.subs| ==> SubOk(c, b, e.subs[k])
    ensures var subs := e.subs[j := SubEntry(true, Some(req))];
            forall k :: 0 <= k < |subs| ==> SubOk(c, b, subs[k])
  {
    hide PacketOk, Base;
  }

  lemma EntryAt(c: Config, h: Hier, i: nat)
    requires Shaped(c, h) && MshrOk(c, h) && i < |h.mshr|
    ensures EntryOk(c, h, h.mshr[i])
  {
    hide EntryOk;
  }

  /** What a miss on a block that has an entry comes to. */
  lemma MissJoinsIs(c: Config, h: Hier, req: Req, b: Word)
    requires Shaped(c, h) && b == BlockAddress(c, req.pkt.addr) && FindEntry(h.mshr, b) < |h.mshr|
    requires h.mshr[FindEntry(h.mshr, b)].issued
    ensures var i := FindEntry(h.mshr, b);
            var e := h.mshr[i];
            var j := FindFreeSub(e.subs);
            ProcessMiss(c, h, req) ==
              if j < |e.subs| then (SetEntry(c, h, i, e.(subs := e.subs[j := SubEntry(true, Some(req))])), true)
              else (h, false)
  {
    hide BlockAddress, MemRecv, BlockRead, FindEntry, FindFreeEntry, FindFreeSub;
    var i := FindEntry(h.mshr, b);
    assert h.mshr[i].(address := b) == h.mshr[i];
    assert h.mshr[i := h.mshr[i]] == h.mshr;
  }

  /** A miss on a block that has an entry. */
  lemma MissJoins(c: Config, h: Hier, req: Req, b: Word)
    requires ValidConfig(c) && Shaped(c, h) && MshrOk(c, h) && QueueOk(c, h.mshr, h.queue)
    requires PacketOk(c, req.pkt) && b == Base(c, req.pkt.addr) && FindEntry(h.mshr, b) < |h.mshr|
    ensures var (r, ok) := ProcessMiss(c, h, req);
            && MshrOk(c, r) && QueueOk(c, r.mshr, r.queue) && r == h.(mshr := r.mshr)
            && MissIds(r.mshr) == MissIds(h.mshr) + if ok then multiset{req.id} else multiset{}
  {
    var i := FindEntry(h.mshr, b);
    var e := h.mshr[i];
    EntryAt(c, h, i);
    assert BlockAddress(c, req.pkt.addr) == b by { BaseIsBase(c, req.pkt.addr); }
    assert e.issued && forall k :: 0 <= k < |e.subs| ==> SubOk(c, e.address, e.subs[k]);
    hide IsBase, RegionOk, HasRead, GetLocation, FindWay, BlockAddress, Base, MshrOk, QueueOk, Ids, MissIds, Waiting,
         PacketOk, Resident, EntryOk, ProcessMiss, SubOk;
    MissJoinsIs(c, h, req, b);
    var j := FindFreeSub(e.subs);
    if j < |e.subs| {
      var t := e.(subs := e.subs[j := SubEntry(true, Some(req))]);
      NewSub(c, b, e, j, req);
      JoinEntry(c, h, i, t, b);
      WaitingInsert(e.subs, j, req);
      MissIdsUpdate(h.mshr, i, t);
      AddedMiss(MissIds(h.mshr[i := t]), Ids(Waiting(e.subs)), MissIds(h.mshr), req.id);
    }
  }

  lemma AddedMiss(now: multiset<nat>, was: multiset<nat>, before: multiset<nat>, id: nat)
    requires now + was == before + (was + multiset{id})
    ensures now == before + multiset{id}
  {
    assert now == now + was - was;
    assert before + multiset{id} == before + (was + multiset{id}) - was;
  }

  lemma SameMiss(now: multiset<nat>, was: multiset<nat>, before: multiset<nat>)
    requires now + was == before + was
    ensures now == before
  {
    assert now == now + was - was;
    assert before == before + was - was;
  }

  lemma NoneValidSubs(c: Config, b: Word, subs: seq<SubEntry>)
    requires NoneValid(subs)
    ensures forall k :: 0 <= k < |subs| ==> SubOk(c, b, subs[k])
  {
  }

  lemma ReadAccepted(c: Config, h: Hier, req: Req)
    requires ValidConfig(c) && PacketOk(c, req.pkt)
    ensures var q := BlockRead(c, req);
            var (r, ok) := MemRecv(c, h, q);
            && IsRead(q, Base(c, req.pkt.addr)) && q.pkt.size == |q.pkt.data| == c.blkSize
            && (ok ==> |h.queue| < CAPACITY && r == h.(queue := h.queue + [q.(ready := q.ready + c.memDelay)]))
               && (!ok ==> r == h)
  {
    hide Fits, Base, GetLocation;
  }

  /** The entry that a new miss takes, and the one left by a refused request. */
  function Taken(e: Entry, b: Word, req: Req): Entry
    requires e.subs != []
  {
    Entry(true, b, true, e.subs[0 := SubEntry(true, Some(req))])
  }

  function Refused(e: Entry, b: Word, req: Req): Entry
    requires e.subs != []
  {
    e.(address := b, subs := e.subs[0 := SubEntry(false, Some(req))])
  }

  lemma MissTakesIs(c: Config, h: Hier, req: Req, b: Word)
    requires Shaped(c, h) && b == BlockAddress(c, req.pkt.addr) && FindEntry(h.mshr, b) == |h.mshr|
    ensures var i := FindFreeEntry(h.mshr);
            i == |h.mshr| ==> ProcessMiss(c, h, req) == (h, false)
    ensures var i := FindFreeEntry(h.mshr);
            i < |h.mshr| && NoneValid(h.mshr[i].subs) && !h.mshr[i].issued ==>
              var (h1, ok) := MemRecv(c, h, BlockRead(c, req));
              ProcessMiss(c, h, req) ==
                (h1.(mshr := h1.mshr[i := if ok then Taken(h.mshr[i], b, req) else Refused(h.mshr[i], b, req)]), ok)
  {
    hide BlockAddress, MemRecv, BlockRead;
    var i := FindFreeEntry(h.mshr);
    if i < |h.mshr| && NoneValid(h.mshr[i].subs) && !h.mshr[i].issued {
      assert FindFreeSub(h.mshr[i].subs) == 0;
    }
  }

  /** A miss on a block that has no entry. */
  lemma MissTakes(c: Config, h: Hier, req: Req, b: Word)
    requires ValidConfig(c) && Shaped(c, h) && MshrOk(c, h) && QueueOk(c, h.mshr, h.queue)
    requires PacketOk(c, req.pkt) && b == Base(c, req.pkt.addr) && FindEntry(h.mshr, b) == |h.mshr|
             && !Resident(c, h, b)
    ensures var (r, ok) := ProcessMiss(c, h, req);
            && MshrOk(c, r) && QueueOk(c, r.mshr, r.queue) && r == h.(mshr := r.mshr, queue := r.queue)
            && (r.queue == h.queue ||
                (|r.queue| == |h.queue| + 1 <= CAPACITY && r.queue[..|h.queue|] == h.queue
                    && !r.queue[|h.queue|].pkt.isWrite))
            && MissIds(r.mshr) == MissIds(h.mshr) + if ok then multiset{req.id} else multiset{}
  {
    assert BlockAddress(c, req.pkt.addr) == b && IsBase(c, b) by { BaseIsBase(c, req.pkt.addr); }
    MissTakesIs(c, h, req, b);
    var i := FindFreeEntry(h.mshr);
    if i < |h.mshr| {
      EntryAt(c, h, i);
      ReadAccepted(c, h, req);
      assert RegionOk(c, b);
      var e := h.mshr[i];
      hide *;
      if MemRecv(c, h, BlockRead(c, req)).1 { NewMiss(c, h, req, b, i); } else { RefusedMiss(c, h, req, b, i); }
    }
  }

  lemma NewMiss(c: Config, h: Hier, req: Req, b: Word, i: nat)
    requires ValidConfig(c) && Shaped(c, h) && MshrOk(c, h) && QueueOk(c, h.mshr, h.queue) && i < |h.mshr|
    requires PacketOk(c, req.pkt) && b == Base(c, req.pkt.addr) && FindEntry(h.mshr, b) == |h.mshr|
             && !Resident(c, h, b)
    requires IsBase(c, b) && RegionOk(c, b) && !h.mshr[i].valid && NoneValid(h.mshr[i].subs)
    requires var q := BlockRead(c, req);
             var (h1, ok) := MemRecv(c, h, q);
             && IsRead(q, b) && q.pkt.size == |q.pkt.data| == c.blkSize
             && ok && h1 == h.(queue := h.queue + [q.(ready := q.ready + c.memDelay)])
    ensures var h1 := MemRecv(c, h, BlockRead(c, req)).0;
            var r := h1.(mshr := h1.mshr[i := Taken(h.mshr[i], b, req)]);
            && Shaped(c, r) && MshrOk(c, r) && QueueOk(c, r.mshr, r.queue)
            && MissIds(r.mshr) == MissIds(h.mshr) + multiset{req.id}
  {
    hide IsBase, RegionOk, HasRead, GetLocation, FindWay, Base, MshrOk, QueueOk, Ids, MissIds, Waiting, PacketOk,
         Resident, BlockRead, MemRecv;
    var e := h.mshr[i];
    var t := Taken(e, b, req);
    var h1 := MemRecv(c, h, BlockRead(c, req)).0;
    NoneValidSubs(c, b, e.subs);
    NewSub(c, b, e, 0, req);
    TakeEntry(c, h, h1.(mshr := h1.mshr[i := t]), i, t, b, h1.queue[|h.queue|]);
    WaitingInsert(e.subs, 0, req);
    MissIdsUpdate(h.mshr, i, t);
    AddedMiss(MissIds(h.mshr[i := t]), Ids(Waiting(e.subs)), MissIds(h.mshr), req.id);
  }

  lemma RefusedMiss(c: Config, h: Hier, req: Req, b: Word, i: nat)
    requires Shaped(c, h) && MshrOk(c, h) && QueueOk(c, h.mshr, h.queue) && i < |h.mshr|
    requires !h.mshr[i].valid && !h.mshr[i].issued && NoneValid(h.mshr[i].subs)
    ensures var r := h.(mshr := h.mshr[i := Refused(h.mshr[i], b, req)]);
            Shaped(c, r) && MshrOk(c, r) && QueueOk(c, r.mshr, r.queue) && MissIds(r.mshr) == MissIds(h.mshr)
  {
    hide HasRead, GetLocation, FindWay, MshrOk, QueueOk, Ids, MissIds, Waiting, Resident;
    var e := h.mshr[i];
    var w := Refused(e, b, req);
    WaitingUntouched(e.subs, 0, SubEntry(false, Some(req)));
    MissIdsUpdate(h.mshr, i, w);
    TouchEntry(c, h, i, w);
    SameMiss(MissIds(h.mshr[i := w]), Ids(Waiting(e.subs)), MissIds(h.mshr));
  }
}
