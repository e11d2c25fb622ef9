/** What the steps of the cache leave alone. */
module CacheFrames {
  import opened Packets
  import opened Geometry
  import opened CacheSpec
  import opened CacheInvariant

  /** `t` is the beginning of `u`. */
  predicate Extends(t: seq<Req>, u: seq<Req>) {
    |t| <= |u| && u[..|t|] == t
  }

  lemma {:induction false} ServeAllFrame(c: Config, h: Hier, i: nat, w: nat, reqs: seq<Req>)
    requires Shaped(c, h) && i < c.numSets && w < c.assoc
    ensures var r := ServeAll(c, h, i, w, reqs);
            r == h.(blocks := r.blocks, trace := r.trace, crashed := r.crashed) && Extends(h.trace, r.trace)
    decreases |reqs|
  {
    hide Apply, Fits;
    if reqs != [] { ServeAllFrame(c, h, i, w, reqs[..|reqs| - 1]); }
  }

  lemma ServeOnTrace(c: Config, h: Hier, i: nat, w: nat, req: Req)
    requires Shaped(c, h) && i < c.numSets && w < c.assoc && Fits(c, req.pkt)
    ensures var r := ServeOn(c, h, i, w, req);
            && |r.trace| == |h.trace| + 1 && r.trace[..|h.trace|] == h.trace && ServedAs(req, r.trace[|h.trace|])
            && r == h.(blocks := r.blocks, trace := r.trace)
  {
    hide GetLocation, Splice;
  }

  /** A fill services the packets it is given, and these in their order. */
  lemma {:induction false} ServeAllTrace(c: Config, h: Hier, i: nat, w: nat, reqs: seq<Req>)
    requires Shaped(c, h) && i < c.numSets && w < c.assoc && forall k :: 0 <= k < |reqs| ==> Fits(c, reqs[k].pkt)
    ensures ServesNext(h.trace, reqs, ServeAll(c, h, i, w, reqs).trace)
    decreases |reqs|
  {
    hide ServeOn, Fits, ServedAs;
    if reqs != [] {
      var n := |reqs| - 1;
      var was := ServeAll(c, h, i, w, reqs[..n]);
      var now := ServeAll(c, h, i, w, reqs);
      ServeAllTrace(c, h, i, w, reqs[..n]);
      ServeOnTrace(c, was, i, w, reqs[n]);
      assert now.trace[..|h.trace|] == was.trace[..|h.trace|];
      forall k | 0 <= k < |reqs| ensures ServedAs(reqs[k], now.trace[|h.trace| + k]) {
        if k < n {
          assert now.trace[|h.trace| + k] == now.trace[..|was.trace|][|h.trace| + k];
          assert ServedAs(reqs[..n][k], was.trace[|h.trace| + k]);
        }
      }
    }
  }

  lemma PlacedFrame(c: Config, h: Hier, pkt: Packet, choice: nat)
    requires Shaped(c, h) && |pkt.data| == c.blkSize
    ensures var r := Placed(c, h, pkt, choice).0;
            && r == h.(blocks := r.blocks, queue := r.queue, crashed := r.crashed)
            && Extends(h.queue, r.queue)
            && (r.queue == h.queue ||
                (|r.queue| == |h.queue| + 1 && r.queue[|h.queue|].pkt.isWrite
                    && r.queue[|h.queue|].ready == h.now + c.memDelay))
  {
    hide GetLocation, Mapped, RegionIndex, GetAddress, FindWay, VictimWay;
  }

  /** A service of main memory takes its front packet, adds at most one
      write-back, and touches neither the queue of the cache nor the clock. */
  lemma ServeFrame(c: Config, h: Hier, lookup: Lookup, choice: nat)
    requires Shaped(c, h) && h.queue != []
    ensures var r := MemServe(c, h, lookup, choice);
            && r.pending == h.pending && r.now == h.now && r.accepted == h.accepted && Extends(h.trace, r.trace)
            && Extends(h.queue[1..], r.queue)
            && (r.queue == h.queue[1..] ||
                (!h.queue[0].pkt.isWrite && |r.queue| == |h.queue| && r.queue[|h.queue| - 1].pkt.isWrite
                 && r.queue[|h.queue| - 1].ready == h.now + c.memDelay))
  {
    hide GetLocation, Placed, ServeAll, ReadBytes, LookupEntry, Waiting;
    var pkt := h.queue[0].pkt;
    if !pkt.isWrite && pkt.size == c.blkSize {
      var reply := pkt.(data := ReadBytes(h.store, pkt.addr, pkt.size));
      var h1 := h.(queue := h.queue[1..]);
      PlacedFrame(c, h1, reply, choice);
      var (h2, w) := Placed(c, h1, reply, choice);
      var i := LookupEntry(lookup, h2.mshr, pkt.addr);
      if i < |h2.mshr| { ServeAllFrame(c, h2, GetLocation(c, pkt.addr).index, w, Waiting(h2.mshr[i].subs)); }
    }
  }

  /** Processing a packet changes neither queue nor clock, and a refused packet
      comes back with a later ready time. */
  lemma ReadyFrame(c: Config, h: Hier, req: Req)
    requires Shaped(c, h)
    ensures var (r, k) := ProcessReady(c, h, req);
            && r.pending == h.pending && r.now == h.now && |r.trace| >= |h.trace|
            && (k.Some? ==> k.value == req.(ready := h.now + 1))
  {
    hide GetLocation, FindWay, ServeOn, ProcessMiss;
    MissFrame(c, h, req);
    var l := GetLocation(c, req.pkt.addr);
    var w := FindWay(h.blocks[l.index], l.tag);
    if w < c.assoc { ServeOnFrame(c, h, l.index, w, req); }
  }

  lemma ServeOnFrame(c: Config, h: Hier, i: nat, w: nat, req: Req)
    requires Shaped(c, h) && i < c.numSets && w < c.assoc
    ensures var r := ServeOn(c, h, i, w, req);
            r.pending == h.pending && r.now == h.now && |r.trace| >= |h.trace|
  {
    hide Apply, Fits;
  }

  lemma MissFrame(c: Config, h: Hier, req: Req)
    requires Shaped(c, h)
    ensures var r := ProcessMiss(c, h, req).0;
            r.pending == h.pending && r.now == h.now && r.trace == h.trace
  {
    hide BlockAddress, FindEntry, FindFreeEntry, FindFreeSub, RegionIndex, BlockRead;
  }
}
