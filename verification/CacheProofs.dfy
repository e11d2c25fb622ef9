/** Every step of the cache and of main memory keeps the cache invariant. */
module CacheProofs {
  import opened Words
  import opened Isa
  import opened Packets
  import opened Geometry
  import opened CacheSpec
  import opened CacheInvariant

  // ----------------------------------------------------------------- geometry

  lemma BaseIsBase(c: Config, a: Word)
    requires ValidConfig(c)
    ensures IsBase(c, Base(c, a))
    ensures GetLocation(c, Base(c, a)) == GetLocation(c, a).(offset := 0)
    ensures BlockAddress(c, a) == Base(c, a)
    ensures a == Base(c, a) + GetLocation(c, a).offset
  {
    hide GetAddress;
    var b := Base(c, a);
    LocationIsSplit(c, a);
    LocationIsSplit(c, b);
    DivMod(a, c.blkSize);
    assert b == c.blkSize * (a / c.blkSize);
    DivUnique(b, c.blkSize, a / c.blkSize, 0);
    SplitThenJoin(c, b);
  }

  lemma AddrOfBase(c: Config, b: Word)
    requires ValidConfig(c) && IsBase(c, b)
    ensures var l := GetLocation(c, b);
            l.offset == 0 && InRange(c, Location(l.tag, l.index, 0)) && AddrOf(c, l.tag, l.index) == b
  {
    BaseIsBase(c, b);
    SplitThenJoin(c, b);
    hide GetAddress, GetLocation, Base, InRange;
  }

  lemma BaseOfAddr(c: Config, tag: nat, i: nat)
    requires ValidConfig(c) && InRange(c, Location(tag, i, 0))
    ensures IsBase(c, AddrOf(c, tag, i)) && GetLocation(c, AddrOf(c, tag, i)) == Location(tag, i, 0)
  {
    JoinThenSplit(c, Location(tag, i, 0));
    LocationIsSplit(c, AddrOf(c, tag, i));
    hide GetAddress, GetLocation;
  }

  /** Two blocks in one set with one tag are one block. */
  lemma SameSlot(c: Config, a: Word, b: Word)
    requires ValidConfig(c) && IsBase(c, a) && IsBase(c, b)
    requires GetLocation(c, a).tag == GetLocation(c, b).tag && GetLocation(c, a).index == GetLocation(c, b).index
    ensures a == b
  {
    SameBlock(c, a, b);
    hide GetLocation, Base;
  }

  // ------------------------------------------------------------ flat memory

  lemma SameBytes(m: Mem, n: Mem, a: int, k: nat)
    requires forall x :: a <= x < a + k ==> Get(m, x) == Get(n, x)
    ensures ReadBytes(m, a, k) == ReadBytes(n, a, k)
  {
  }

  /** Writing outside a range does not change it. */
  lemma WriteElsewhere(m: Mem, a: int, d: seq<Byte>, b: int, k: nat)
    requires a + |d| <= b || b + k <= a
    ensures ReadBytes(WriteBytes(m, a, d), b, k) == ReadBytes(m, b, k)
  {
    forall x | b <= x < b + k ensures Get(WriteBytes(m, a, d), x) == Get(m, x) {
      GetAfterWrite(m, a, d, x);
    }
    SameBytes(WriteBytes(m, a, d), m, b, k);
  }

  /** Writing inside a range splices it. */
  lemma WriteInside(m: Mem, b: int, k: nat, off: nat, d: seq<Byte>)
    requires off + |d| <= k
    ensures ReadBytes(WriteBytes(m, b + off, d), b, k) == Splice(ReadBytes(m, b, k), off, d)
  {
    var r := ReadBytes(WriteBytes(m, b + off, d), b, k);
    var s := Splice(ReadBytes(m, b, k), off, d);
    forall x | 0 <= x < k ensures r[x] == s[x] {
      GetAfterWrite(m, b + off, d, b + x);
    }
  }

  lemma ReadInside(m: Mem, b: int, k: nat, off: nat, n: nat)
    requires off + n <= k
    ensures ReadBytes(m, b, k)[off..off + n] == ReadBytes(m, b + off, n)
  {
  }

  /** Blocks do not overlap. */
  lemma BlocksApart(c: Config, a: Word, b: Word)
    requires ValidConfig(c) && IsBase(c, a) && IsBase(c, b) && a != b
    ensures a + c.blkSize <= b || b + c.blkSize <= a
  {
    DivMod(a, c.blkSize);
    DivMod(b, c.blkSize);
    Multiples(c.blkSize, a / c.blkSize, b / c.blkSize);
  }

  lemma Multiples(d: nat, p: int, q: int)
    ensures p < q ==> d * p + d <= d * q
    ensures q < p ==> d * q + d <= d * p
  {
    if p < q { NonNegative(d, q - p - 1); }
    if q < p { NonNegative(d, p - q - 1); }
  }

  lemma NonNegative(d: nat, n: nat)
    ensures d * n >= 0
  {
  }

  // ---------------------------------------------------------------- searching

  lemma WayIs(ways: seq<Block>, w: nat, tag: nat)
    requires UniqueTags(ways) && w < |ways| && HoldsTag(ways[w], tag)
    ensures FindWay(ways, tag) == w
  {
  }

  lemma NoWay(ways: seq<Block>, tag: nat)
    requires forall w :: 0 <= w < |ways| ==> !HoldsTag(ways[w], tag)
    ensures FindWay(ways, tag) == |ways|
  {
  }

  /** Replacing a way by one with the same tag changes no search. */
  lemma SameSearch(ways: seq<Block>, w: nat, b: Block, tag: nat)
    requires UniqueTags(ways) && w < |ways| && b.valid == ways[w].valid && b.tag == ways[w].tag
    ensures FindWay(ways[w := b], tag) == FindWay(ways, tag) && UniqueTags(ways[w := b])
  {
    var f := FindWay(ways, tag);
    var ways' := ways[w := b];
    assert UniqueTags(ways');
    if f < |ways| {
      assert HoldsTag(ways'[f], tag);
      WayIs(ways', f, tag);
    } else {
      assert forall v :: 0 <= v < |ways'| ==> !HoldsTag(ways'[v], tag);
    }
  }

  // ------------------------------------------------------------------ service

  /** Block `b` is in set `i`, way `w`. */
  predicate Holding(c: Config, h: Hier, i: nat, w: nat, b: Word)
    requires Shaped(c, h)
  {
    i == GetLocation(c, b).index && w < c.assoc && HoldsTag(h.blocks[i][w], GetLocation(c, b).tag)
  }

  /** Changing data or dirty bit of one way keeps searches and other blocks. */
  lemma SetSameTag(c: Config, h: Hier, i: nat, w: nat, nb: Block, x: Word)
    requires BlocksOk(c, h) && i < c.numSets && w < c.assoc && |nb.data| == c.blkSize
    requires nb.valid == h.blocks[i][w].valid && nb.tag == h.blocks[i][w].tag
    ensures var r := SetBlock(c, h, i, w, nb);
            && BlocksOk(c, r) && Resident(c, r, x) == Resident(c, h, x)
            && (!Holding(c, h, i, w, x) ==> BlockData(c, r, x) == BlockData(c, h, x))
            && (Holding(c, h, i, w, x) ==>
                  Holding(c, r, i, w, x) && BlockData(c, r, x) == nb.data && BlockData(c, h, x) == h.blocks[i][w].data)
  {
    hide GetLocation, RegionOk, InRange, GetAddress, Drained;
    var l := GetLocation(c, x);
    var r := SetBlock(c, h, i, w, nb);
    SameSearch(h.blocks[i], w, nb, l.tag);
    assert r.blocks[i] == h.blocks[i][w := nb];
    if Holding(c, h, i, w, x) {
      WayIs(h.blocks[i], w, l.tag);
    }
  }

  /** What service does to the block, seen as flat memory. */
  lemma ApplyIsFlat(c: Config, b: Block, p: Packet, flat: Mem)
    requires ValidConfig(c) && Fits(c, p) && b.data == ReadBytes(flat, Base(c, p.addr), c.blkSize)
    ensures var (b1, p1) := Apply(c, b, p);
            && b1.data == ReadBytes(After(flat, p), Base(c, p.addr), c.blkSize)
            && (!p.isWrite ==> p1 == p.(data := ReadBytes(flat, p.addr, p.size)) && b1 == b)
            && (p.isWrite ==> p1 == p && b1.dirty && b1.valid == b.valid && b1.tag == b.tag)
            && After(flat, p1) == After(flat, p)
  {
    BaseIsBase(c, p.addr);
    var off := GetLocation(c, p.addr).offset;
    if p.isWrite {
      WriteInside(flat, Base(c, p.addr), c.blkSize, off, p.data);
    } else {
      ReadInside(flat, Base(c, p.addr), c.blkSize, off, p.size);
    }
    hide Base, GetLocation, BlockAddress;
  }

  lemma AfterElsewhere(c: Config, p: Packet, flat: Mem, x: Word)
    requires ValidConfig(c) && Fits(c, p) && IsBase(c, x) && x != Base(c, p.addr)
    ensures ReadBytes(After(flat, p), x, c.blkSize) == ReadBytes(flat, x, c.blkSize)
  {
    hide BlockAddress;
    BaseIsBase(c, p.addr);
    BlocksApart(c, Base(c, p.addr), x);
    hide Base, GetLocation;
    if p.isWrite {
      WriteElsewhere(flat, p.addr, p.data, x, c.blkSize);
    }
  }

  /** The contents of the cache and its memory are those of the flat memory. */
  ghost predicate DataOk(c: Config, h: Hier, init: Mem) {
    BlocksOk(c, h) && CleanOk(c, h) && Coherent(c, h, Replay(init, h.trace)) && Legal(init, h.trace)
  }

  lemma ServeCoherent(c: Config, h: Hier, i: nat, w: nat, req: Req, flat: Mem)
    requires ValidConfig(c) && BlocksOk(c, h) && Coherent(c, h, flat)
    requires Fits(c, req.pkt) && Holding(c, h, i, w, Base(c, req.pkt.addr))
    ensures var r := ServeOn(c, h, i, w, req);
            BlocksOk(c, r) && Coherent(c, r, After(flat, req.pkt))
  {
    hide GetLocation, Base, Drained, Apply, IsBase, Fits, After, RegionOk, InRange, GetAddress, AddrOf, TagOk,
         BlockData, ReadBytes;
    var b0 := Base(c, req.pkt.addr);
    assert IsBase(c, b0) by { BaseIsBase(c, req.pkt.addr); }
    var (nb, p) := Apply(c, h.blocks[i][w], req.pkt);
    SetSameTagAt(c, h, i, w, req, flat);
    var r := ServeOn(c, h, i, w, req);
    forall x: Word | IsBase(c, x) ensures BlockData(c, r, x) == ReadBytes(After(flat, req.pkt), x, c.blkSize) {
      ServeAt(c, h, i, w, req, flat, x);
    }
  }

  lemma SetSameTagAt(c: Config, h: Hier, i: nat, w: nat, req: Req, flat: Mem)
    requires ValidConfig(c) && BlocksOk(c, h) && Coherent(c, h, flat)
    requires Fits(c, req.pkt) && Holding(c, h, i, w, Base(c, req.pkt.addr))
    ensures var (nb, p) := Apply(c, h.blocks[i][w], req.pkt);
            && nb.valid && nb.tag == h.blocks[i][w].tag && |nb.data| == c.blkSize
            && h.blocks[i][w].data == ReadBytes(flat, Base(c, req.pkt.addr), c.blkSize)
            && BlocksOk(c, ServeOn(c, h, i, w, req))
  {
    hide GetLocation, Base, Drained, RegionOk, InRange, GetAddress, AddrOf, TagOk;
    var b0 := Base(c, req.pkt.addr);
    BaseIsBase(c, req.pkt.addr);
    SetSameTag(c, h, i, w, h.blocks[i][w], b0);
    assert BlockData(c, h, b0) == ReadBytes(flat, b0, c.blkSize);
    var (nb, p) := Apply(c, h.blocks[i][w], req.pkt);
    SetSameTag(c, h, i, w, nb, b0);
  }

  lemma ServeAt(c: Config, h: Hier, i: nat, w: nat, req: Req, flat: Mem, x: Word)
    requires ValidConfig(c) && BlocksOk(c, h) && Coherent(c, h, flat)
    requires Fits(c, req.pkt) && Holding(c, h, i, w, Base(c, req.pkt.addr)) && IsBase(c, x)
    ensures var r := ServeOn(c, h, i, w, req);
            && BlockData(c, r, x) == ReadBytes(After(flat, req.pkt), x, c.blkSize)
            && Resident(c, r, x) == Resident(c, h, x)
            && Holding(c, r, i, w, Base(c, req.pkt.addr))
  {
    hide GetLocation, Base, Drained, Apply, After, RegionOk, InRange, GetAddress, AddrOf, TagOk;
    var b0 := Base(c, req.pkt.addr);
    assert IsBase(c, b0) by { BaseIsBase(c, req.pkt.addr); }
    SetSameTagAt(c, h, i, w, req, flat);
    var (nb, p) := Apply(c, h.blocks[i][w], req.pkt);
    SetSameTag(c, h, i, w, nb, x);
    SetSameTag(c, h, i, w, nb, b0);
    ApplyIsFlat(c, h.blocks[i][w], req.pkt, flat);
    if x != b0 {
      assert !Holding(c, h, i, w, x) by { if Holding(c, h, i, w, x) { SameSlot(c, x, b0); } }
      AfterElsewhere(c, req.pkt, flat, x);
    }
  }

  lemma {:induction false} LegalGrows(init: Mem, trace: seq<Req>, q: Req)
    requires Legal(init, trace)
    requires !q.pkt.isWrite ==> q.pkt.data == ReadBytes(Replay(init, trace), q.pkt.addr, q.pkt.size)
    ensures Legal(init, trace + [q]) && Replay(init, trace + [q]) == After(Replay(init, trace), q.pkt)
  {
    var t := trace + [q];
    assert t[..|trace|] == trace;
    forall k | 0 <= k < |t| && !t[k].pkt.isWrite
      ensures t[k].pkt.data == ReadBytes(Replay(init, t[..k]), t[k].pkt.addr, t[k].pkt.size)
    {
      if k < |trace| { assert t[..k] == trace[..k]; }
    }
  }

  /** Servicing a packet on its block is one access of the flat memory. */
  lemma ServeKeeps(c: Config, h: Hier, i: nat, w: nat, req: Req, init: Mem)
    requires ValidConfig(c) && DataOk(c, h, init)
    requires Fits(c, req.pkt) && Holding(c, h, i, w, Base(c, req.pkt.addr))
    ensures var r := ServeOn(c, h, i, w, req);
            && DataOk(c, r, init) && Holding(c, r, i, w, Base(c, req.pkt.addr))
            && r == h.(blocks := r.blocks, trace := r.trace)
            && |r.trace| == |h.trace| + 1 && r.trace[..|h.trace|] == h.trace && r.trace[|h.trace|].id == req.id
            && (forall x: Word :: IsBase(c, x) ==> Resident(c, r, x) == Resident(c, h, x))
  {
    hide GetLocation, Base, Drained, Apply, After, RegionOk, InRange, GetAddress, AddrOf, TagOk, BlockData, ReadBytes,
         Fits, Replay, Legal, IsBase;
    var flat := Replay(init, h.trace);
    var r := ServeOn(c, h, i, w, req);
    ServeCoherent(c, h, i, w, req, flat);
    SetSameTagAt(c, h, i, w, req, flat);
    ApplyIsFlat(c, h.blocks[i][w], req.pkt, flat);
    var (nb, p) := Apply(c, h.blocks[i][w], req.pkt);
    LegalGrows(init, h.trace, req.(pkt := p));
    forall x: Word | IsBase(c, x) ensures Resident(c, r, x) == Resident(c, h, x) { ServeAt(c, h, i, w, req, flat, x); }
    assert IsBase(c, Base(c, req.pkt.addr)) by { BaseIsBase(c, req.pkt.addr); }
    ServeAt(c, h, i, w, req, flat, Base(c, req.pkt.addr));
    assert CleanOk(c, r) by { ServeClean(c, h, i, w, req, nb, p); }
  }

  lemma ServeClean(c: Config, h: Hier, i: nat, w: nat, req: Req, nb: Block, p: Packet)
    requires Shaped(c, h) && CleanOk(c, h) && i < c.numSets && w < c.assoc && Fits(c, req.pkt)
    requires Apply(c, h.blocks[i][w], req.pkt) == (nb, p)
    requires nb.valid ==> nb.dirty || nb == h.blocks[i][w]
    ensures CleanOk(c, ServeOn(c, h, i, w, req))
  {
    hide GetLocation, Base, Drained, Apply, Fits, ReadBytes, AddrOf;
  }

  // --------------------------------------------------------------- write-backs

  lemma DrainedPush(store: Mem, queue: seq<Req>, q: Req)
    ensures Drained(store, queue + [q]) == After(Drained(store, queue), q.pkt)
  {
    assert (queue + [q])[..|queue|] == queue;
  }

  /** Main memory taking the front of its queue does not change what it will
      hold when the queue is done. */
  lemma {:induction false} DrainedFront(store: Mem, queue: seq<Req>)
    requires queue != []
    ensures Drained(After(store, queue[0].pkt), queue[1..]) == Drained(store, queue)
    decreases |queue|
  {
    var n := |queue| - 1;
    if n == 0 {
      assert queue[..0] == [] && queue[1..] == [];
    } else {
      assert queue[1..][..n - 1] == queue[..n][1..];
      DrainedFront(store, queue[..n]);
    }
  }

  /** Write-backs of other blocks do not touch block `b`. */
  lemma {:induction false} DrainedElsewhere(c: Config, mshr: seq<Entry>, store: Mem, queue: seq<Req>, b: Word)
    requires ValidConfig(c) && IsBase(c, b)
    requires forall i :: 0 <= i < |queue| ==> QueueItemOk(c, mshr, queue[i])
    requires forall i :: 0 <= i < |queue| ==> !queue[i].pkt.isWrite || queue[i].pkt.addr != b
    ensures ReadBytes(Drained(store, queue), b, c.blkSize) == ReadBytes(store, b, c.blkSize)
    decreases |queue|
  {
    hide Base, ReadBytes, HasEntry, RegionOk;
    if queue != [] {
      var n := |queue| - 1;
      DrainedElsewhere(c, mshr, store, queue[..n], b);
      var q := queue[n];
      if q.pkt.isWrite {
        BlocksApart(c, q.pkt.addr, b);
        WriteElsewhere(Drained(store, queue[..n]), q.pkt.addr, q.pkt.data, b, c.blkSize);
      }
    }
  }

  /** The write-back of the block in set `i`, way `w`. */
  function Victim(c: Config, h: Hier, i: nat, w: nat): Req
    requires Shaped(c, h) && i < c.numSets && w < c.assoc
  {
    var b := h.blocks[i][w];
    Req(0, Packet(true, WriteBackPacket, AddrOf(c, b.tag, i), c.blkSize, b.data), h.now + c.memDelay)
  }

  /** After an accepted write-back, or with a clean victim, memory will hold the
      victim's data; every other block is as before. */
  lemma WriteBackKeeps(c: Config, h: Hier, i: nat, w: nat)
    requires ValidConfig(c) && BlocksOk(c, h) && CleanOk(c, h) && i < c.numSets && w < c.assoc
    ensures var r := WriteBack(c, h, i, w);
            var b := h.blocks[i][w];
            !r.crashed ==>
              && r == h.(queue := r.queue) && !h.crashed
              && (r.queue == h.queue || (b.valid && r.queue == h.queue + [Victim(c, h, i, w)]))
              && (b.valid ==> ReadBytes(Drained(r.store, r.queue), AddrOf(c, b.tag, i), c.blkSize) == b.data)
              && (forall x: Word :: IsBase(c, x) && (b.valid ==> x != AddrOf(c, b.tag, i)) ==>
                    ReadBytes(Drained(r.store, r.queue), x, c.blkSize)
                        == ReadBytes(Drained(h.store, h.queue), x, c.blkSize))
  {
    hide GetLocation, Base, RegionOk, InRange, GetAddress, ReadBytes, RegionIndex, Drained, IsBase;
    var r := WriteBack(c, h, i, w);
    var b := h.blocks[i][w];
    if !r.crashed && b.valid && b.dirty {
      var q := Victim(c, h, i, w);
      DrainedPush(h.store, h.queue, q);
      var y := AddrOf(c, b.tag, i);
      BaseOfAddr(c, b.tag, i);
      WriteInsideAll(Drained(h.store, h.queue), y, b.data);
      forall x: Word | IsBase(c, x) && x != y
        ensures ReadBytes(Drained(r.store, r.queue), x, c.blkSize) == ReadBytes(Drained(h.store, h.queue), x, c.blkSize)
      {
        BlocksApart(c, y, x);
        WriteElsewhere(Drained(h.store, h.queue), y, b.data, x, c.blkSize);
      }
    }
  }

  lemma WriteInsideAll(m: Mem, a: int, d: seq<Byte>)
    ensures ReadBytes(WriteBytes(m, a, d), a, |d|) == d
  {
    forall k | 0 <= k < |d| ensures ReadBytes(WriteBytes(m, a, d), a, |d|)[k] == d[k] {
      GetAfterWrite(m, a, d, a + k);
    }
  }

  // -------------------------------------------------------------------- fills

  /** Putting a block with a fresh tag into one way changes the search for that
      tag and for the tag it replaces only. */
  lemma ReplaceSearch(ways: seq<Block>, v: nat, nb: Block, tag: nat)
    requires UniqueTags(ways) && v < |ways| && nb.valid && FindWay(ways, nb.tag) == |ways|
    ensures UniqueTags(ways[v := nb])
    ensures tag == nb.tag ==> FindWay(ways[v := nb], tag) == v
    ensures tag != nb.tag && HoldsTag(ways[v], tag) ==> FindWay(ways, tag) == v && FindWay(ways[v := nb], tag) == |ways|
    ensures tag != nb.tag && !HoldsTag(ways[v], tag) ==> FindWay(ways[v := nb], tag) == FindWay(ways, tag) != v
  {
    var ways' := ways[v := nb];
    assert forall w :: 0 <= w < |ways| ==> !HoldsTag(ways[w], nb.tag);
    assert UniqueTags(ways');
    if tag == nb.tag {
      WayIs(ways', v, tag);
    } else if HoldsTag(ways[v], tag) {
      WayIs(ways, v, tag);
      NoWay(ways', tag);
    } else {
      var f := FindWay(ways, tag);
      if f < |ways| {
        assert HoldsTag(ways'[f], tag);
        WayIs(ways', f, tag);
      } else {
        NoWay(ways', tag);
      }
    }
  }

  /** A fill of block `b` into set `i`, way `v`, when `b` was not resident. */
  lemma FillBlock(c: Config, h: Hier, r: Hier, b: Word, v: nat, data: seq<Byte>, flat: Mem, x: Word)
    requires ValidConfig(c) && BlocksOk(c, h) && IsBase(c, b) && !Resident(c, h, b) && v < c.assoc
    requires |data| == c.blkSize && data == ReadBytes(flat, b, c.blkSize)
    requires Coherent(c, h, flat) && IsBase(c, x)
    requires var i := GetLocation(c, b).index;
             var nb := Block(true, false, GetLocation(c, b).tag, data);
             && r.blocks == SetBlock(c, h, i, v, nb).blocks && Shaped(c, r)
             && (h.blocks[i][v].valid ==>
                  ReadBytes(Drained(r.store, r.queue), AddrOf(c, h.blocks[i][v].tag, i), c.blkSize)
                      == h.blocks[i][v].data)
             && (forall y: Word :: IsBase(c, y) && (h.blocks[i][v].valid ==> y != AddrOf(c, h.blocks[i][v].tag, i)) ==>
                   ReadBytes(Drained(r.store, r.queue), y, c.blkSize)
                       == ReadBytes(Drained(h.store, h.queue), y, c.blkSize))
    ensures BlockData(c, r, x) == ReadBytes(flat, x, c.blkSize)
    ensures Resident(c, r, x) ==> Resident(c, h, x) || x == b
    ensures x == b ==> Resident(c, r, x) && Holding(c, r, GetLocation(c, b).index, v, b)
    ensures var i := GetLocation(c, b).index;
            h.blocks[i][v].valid && x == AddrOf(c, h.blocks[i][v].tag, i) ==> Resident(c, h, x) && !Resident(c, r, x)
  {
    hide GetLocation, Base, RegionOk, GetAddress, ReadBytes, Drained, IsBase, AddrOf, InRange, ValidConfig;
    var l := GetLocation(c, x);
    var i := GetLocation(c, b).index;
    var was := h.blocks[i][v];
    var nb := Block(true, false, GetLocation(c, b).tag, data);
    assert BlockData(c, h, x) == ReadBytes(flat, x, c.blkSize);
    ReplaceSearch(h.blocks[i], v, nb, l.tag);
    if was.valid {
      assert TagOk(c, was.tag, i);
      BaseOfAddr(c, was.tag, i);
    }
    AddrOfBase(c, x);
    if l.index == i {
      if l.tag == nb.tag { SameSlot(c, x, b); }
    }
  }

  /** What the queue gains from a fill: nothing, or the write-back of a block
      that was resident and no longer is. */
  predicate Evicted(c: Config, h: Hier, r: Hier, b: Word)
    requires Shaped(c, h) && Shaped(c, r)
  {
    || r.queue == h.queue
    || (|r.queue| == |h.queue| + 1 && r.queue[..|h.queue|] == h.queue &&
        var q := r.queue[|h.queue|];
        && q.pkt.isWrite && q.pkt.ptype == WriteBackPacket && q.pkt.size == |q.pkt.data| == c.blkSize
        && IsBase(c, q.pkt.addr) && RegionOk(c, q.pkt.addr) && q.pkt.addr != b
        && Resident(c, h, q.pkt.addr) && !Resident(c, r, q.pkt.addr))
  }

  /** A fill keeps the flat memory and makes the block resident. */
  lemma PlacedKeeps(c: Config, h: Hier, pkt: Packet, choice: nat, init: Mem)
    requires ValidConfig(c) && DataOk(c, h, init)
    requires IsBase(c, pkt.addr) && RegionOk(c, pkt.addr) && !Resident(c, h, pkt.addr)
    requires |pkt.data| == c.blkSize && pkt.data == ReadBytes(Drained(h.store, h.queue), pkt.addr, c.blkSize)
    ensures var (r, v) := Placed(c, h, pkt, choice);
            !r.crashed ==>
              && DataOk(c, r, init) && Holding(c, r, GetLocation(c, pkt.addr).index, v, pkt.addr)
              && r == h.(blocks := r.blocks, queue := r.queue)
              && (forall x: Word :: IsBase(c, x) && Resident(c, r, x) ==> Resident(c, h, x) || x == pkt.addr)
              && Evicted(c, h, r, pkt.addr)
  {
    hide GetLocation, Base, RegionOk, GetAddress, ReadBytes, Drained, IsBase, AddrOf, InRange, Legal, Replay, WriteBack,
         BlockData, Evicted;
    var b := pkt.addr;
    var i := GetLocation(c, b).index;
    var v := VictimWay(h.blocks[i], choice);
    var was := h.blocks[i][v];
    var flat := Replay(init, h.trace);
    var h1 := WriteBack(c, h, i, v);
    var r := Placed(c, h, pkt, choice).0;
    WriteBackKeeps(c, h, i, v);
    if !r.crashed {
      assert pkt.data == ReadBytes(flat, b, c.blkSize) by { NotResidentData(c, h, b, flat); }
      if was.valid { BaseOfAddr(c, was.tag, i); }
      AddrOfBase(c, b);
      forall x: Word | IsBase(c, x)
        ensures BlockData(c, r, x) == ReadBytes(flat, x, c.blkSize)
        ensures Resident(c, r, x) ==> Resident(c, h, x) || x == b
        ensures x == b ==> Holding(c, r, i, v, b)
        ensures was.valid && x == AddrOf(c, was.tag, i) ==> Resident(c, h, x) && !Resident(c, r, x)
      {
        FillBlock(c, h, r, b, v, pkt.data, flat, x);
      }
      PlacedBlocks(c, h, r, b, i, v, pkt.data);
      assert Evicted(c, h, r, b) by { EvictedIs(c, h, r, b, i, v); }
    }
  }

  lemma NotResidentData(c: Config, h: Hier, b: Word, flat: Mem)
    requires Shaped(c, h) && Coherent(c, h, flat) && IsBase(c, b) && !Resident(c, h, b)
    ensures ReadBytes(Drained(h.store, h.queue), b, c.blkSize) == ReadBytes(flat, b, c.blkSize)
  {
    hide GetLocation, Base, ReadBytes, Drained, IsBase;
    assert BlockData(c, h, b) == ReadBytes(flat, b, c.blkSize);
  }

  lemma EvictedIs(c: Config, h: Hier, r: Hier, b: Word, i: nat, v: nat)
    requires ValidConfig(c) && BlocksOk(c, h) && Shaped(c, r) && i < c.numSets && v < c.assoc && IsBase(c, b)
             && Resident(c, r, b)
    requires r.queue == h.queue || (h.blocks[i][v].valid && r.queue == h.queue + [Victim(c, h, i, v)])
    requires h.blocks[i][v].valid ==>
               var y := AddrOf(c, h.blocks[i][v].tag, i);
               IsBase(c, y) && Resident(c, h, y) && !Resident(c, r, y)
    ensures Evicted(c, h, r, b)
  {
    hide GetLocation, Base, RegionOk, IsBase, AddrOf, InRange, Resident;
  }

  lemma PlacedBlocks(c: Config, h: Hier, r: Hier, b: Word, i: nat, v: nat, data: seq<Byte>)
    requires ValidConfig(c) && BlocksOk(c, h) && CleanOk(c, h) && Shaped(c, r) && |data| == c.blkSize
    requires IsBase(c, b) && RegionOk(c, b) && !Resident(c, h, b) && i == GetLocation(c, b).index && v < c.assoc
    requires r.blocks == SetBlock(c, h, i, v, Block(true, false, GetLocation(c, b).tag, data)).blocks
    requires data == ReadBytes(Drained(h.store, h.queue), b, c.blkSize)
    requires forall y: Word :: IsBase(c, y) && (h.blocks[i][v].valid ==> y != AddrOf(c, h.blocks[i][v].tag, i)) ==>
               ReadBytes(Drained(r.store, r.queue), y, c.blkSize) == ReadBytes(Drained(h.store, h.queue), y, c.blkSize)
    ensures BlocksOk(c, r) && CleanOk(c, r)
  {
    hide GetLocation, Base, RegionOk, GetAddress, ReadBytes, Drained, IsBase, AddrOf, InRange;
    var tag := GetLocation(c, b).tag;
    var nb := Block(true, false, tag, data);
    var was := h.blocks[i][v];
    AddrOfBase(c, b);
    ReplaceSearch(h.blocks[i], v, nb, tag);
    if was.valid {
      BaseOfAddr(c, was.tag, i);
      assert was.tag != tag;
    }
    forall j, w | 0 <= j < c.numSets && 0 <= w < c.assoc && r.blocks[j][w].valid && !r.blocks[j][w].dirty
      ensures r.blocks[j][w].data == ReadBytes(Drained(r.store, r.queue), AddrOf(c, r.blocks[j][w].tag, j), c.blkSize)
    {
      if j == i && w == v {
        assert was.valid ==> b != AddrOf(c, was.tag, i);
      } else {
        assert r.blocks[j][w] == h.blocks[j][w];
        OtherBlock(c, h, i, v, j, w);
      }
    }
  }

  /** Distinct valid slots hold distinct blocks. */
  lemma OtherBlock(c: Config, h: Hier, i: nat, v: nat, j: nat, w: nat)
    requires ValidConfig(c) && BlocksOk(c, h) && i < c.numSets && v < c.assoc && j < c.numSets && w < c.assoc
    requires (i != j || v != w) && h.blocks[j][w].valid
    ensures IsBase(c, AddrOf(c, h.blocks[j][w].tag, j))
    ensures h.blocks[i][v].valid ==> AddrOf(c, h.blocks[j][w].tag, j) != AddrOf(c, h.blocks[i][v].tag, i)
  {
    hide GetLocation, Base, RegionOk, GetAddress, IsBase, InRange;
    assert TagOk(c, h.blocks[j][w].tag, j);
    BaseOfAddr(c, h.blocks[j][w].tag, j);
    if h.blocks[i][v].valid {
      assert TagOk(c, h.blocks[i][v].tag, i);
      BaseOfAddr(c, h.blocks[i][v].tag, i);
      if i == j { assert UniqueTags(h.blocks[i]); }
    }
    hide AddrOf;
  }

  // -------------------------------------------------------------- whole fills

  /** Packets of block `b`, each inside it. */
  predicate AllOf(c: Config, b: Word, reqs: seq<Req>) {
    forall k :: 0 <= k < |reqs| ==> PacketOk(c, reqs[k].pkt) && Base(c, reqs[k].pkt.addr) == b
  }

  lemma HoldingWay(c: Config, h: Hier, i: nat, w: nat, b: Word)
    requires Shaped(c, h) && Holding(c, h, i, w, b)
    ensures i < c.numSets && w < c.assoc
  {
    hide GetLocation;
  }

  lemma {:induction false} ServeAllKeeps(c: Config, h: Hier, i: nat, w: nat, reqs: seq<Req>, b: Word, init: Mem)
    requires ValidConfig(c) && Shaped(c, h) && DataOk(c, h, init) && Holding(c, h, i, w, b) && AllOf(c, b, reqs)
    ensures i < c.numSets && w < c.assoc
    ensures var r := ServeAll(c, h, i, w, reqs);
            && DataOk(c, r, init) && Holding(c, r, i, w, b)
            && r == h.(blocks := r.blocks, trace := r.trace)
            && Ids(r.trace) == Ids(h.trace) + Ids(reqs) && |r.trace| == |h.trace| + |reqs|
            && (forall x: Word :: IsBase(c, x) ==> Resident(c, r, x) == Resident(c, h, x))
    decreases |reqs|
  {
    hide DataOk, GetLocation, Base, IsBase, ServeOn, FindWay, RegionOk, Fits, Holding, Ids, Resident;
    HoldingWay(c, h, i, w, b);
    if reqs == [] {
      NoIds();
    } else {
      var n := |reqs| - 1;
      var h1 := ServeAll(c, h, i, w, reqs[..n]);
      ServeAllKeeps(c, h, i, w, reqs[..n], b, init);
      assert PacketOk(c, reqs[n].pkt) && Base(c, reqs[n].pkt.addr) == b;
      ServeKeeps(c, h1, i, w, reqs[n], init);
      var r := ServeOn(c, h1, i, w, reqs[n]);
      assert r == ServeAll(c, h, i, w, reqs);
      OneMoreId(h1.trace, r.trace, reqs[n].id);
      OneMoreId(reqs[..n], reqs, reqs[n].id);
    }
  }

  lemma NoIds()
    ensures Ids([]) == multiset{}
  {
  }

  lemma OneMoreId(p: seq<Req>, q: seq<Req>, id: nat)
    requires |q| == |p| + 1 && q[..|p|] == p && q[|p|].id == id
    ensures Ids(q) == Ids(p) + multiset{id}
  {
  }

  lemma {:induction false} WaitingOf(c: Config, b: Word, subs: seq<SubEntry>)
    requires forall j :: 0 <= j < |subs| ==> SubOk(c, b, subs[j])
    ensures AllOf(c, b, Waiting(subs))
  {
    hide PacketOk, Base;
    if subs != [] {
      WaitingOf(c, b, subs[..|subs| - 1]);
    }
  }

  lemma {:induction false} NothingWaits(subs: seq<SubEntry>)
    requires NoneValid(subs)
    ensures Waiting(subs) == []
  {
    if subs != [] {
      NothingWaits(subs[..|subs| - 1]);
    }
  }

  /** Replacing entry `i` exchanges its waiting packets for the new ones. */
  lemma {:induction false} MissIdsUpdate(mshr: seq<Entry>, i: nat, e: Entry)
    requires i < |mshr|
    ensures MissIds(mshr[i := e]) + Ids(Waiting(mshr[i].subs)) == MissIds(mshr) + Ids(Waiting(e.subs))
    decreases |mshr|
  {
    hide Ids, Waiting;
    var n := |mshr| - 1;
    var last := Ids(Waiting(mshr[n].subs));
    assert MissIds(mshr) == MissIds(mshr[..n]) + last;
    if i < n {
      assert mshr[i := e][..n] == mshr[..n][i := e];
      assert MissIds(mshr[i := e]) == MissIds(mshr[..n][i := e]) + last;
      MissIdsUpdate(mshr[..n], i, e);
      assert mshr[..n][i] == mshr[i];
      Regrouped(MissIds(mshr[..n][i := e]), last, Ids(Waiting(mshr[i].subs)), MissIds(mshr[..n]), Ids(Waiting(e.subs)));
    } else {
      assert mshr[i := e][..n] == mshr[..n];
      assert MissIds(mshr[i := e]) == MissIds(mshr[..n]) + Ids(Waiting(e.subs));
    }
  }

  lemma Regrouped(a: multiset<nat>, last: multiset<nat>, x: multiset<nat>, b: multiset<nat>, y: multiset<nat>)
    requires a + x == b + y
    ensures a + last + x == b + last + y
  {
    assert a + last + x == a + x + last;
    assert b + last + y == b + y + last;
  }

  /** The miss registers while the read of block `b` is being answered. */
  predicate MshrBut(c: Config, h: Hier, b: Word)
    requires Shaped(c, h)
  {
    && DistinctEntries(h.mshr)
    && (forall i :: 0 <= i < |h.mshr| && !HoldsMiss(h.mshr[i], b) ==> EntryOk(c, h, h.mshr[i]))
    && (forall i :: 0 <= i < |h.mshr| && HoldsMiss(h.mshr[i], b) ==>
          forall j :: 0 <= j < |h.mshr[i].subs| ==> SubOk(c, b, h.mshr[i].subs[j]))
  }

  /** Placing the answered block leaves every other miss and queued request as
      the invariant wants it. */
  lemma PlacedMshr(c: Config, h: Hier, r: Hier, b: Word)
    requires ValidConfig(c) && Shaped(c, h) && Shaped(c, r) && IsBase(c, b)
    requires MshrBut(c, h, b) && r.mshr == h.mshr
    requires forall x: Word :: IsBase(c, x) && Resident(c, r, x) ==> Resident(c, h, x) || x == b
    requires Evicted(c, h, r, b)
    ensures MshrBut(c, r, b)
  {
    hide IsBase, Resident, SubOk, RegionOk;
    forall i | 0 <= i < |h.mshr| && !HoldsMiss(h.mshr[i], b) ensures EntryOk(c, r, h.mshr[i]) {
      var e := h.mshr[i];
      assert EntryOk(c, h, e);
      if e.valid {
        var k :| 0 <= k < |h.queue| && IsRead(h.queue[k], e.address);
        assert IsRead(r.queue[k], e.address);
      }
    }
  }

  lemma PlacedQueue(c: Config, h: Hier, r: Hier, b: Word)
    requires ValidConfig(c) && Shaped(c, h) && Shaped(c, r)
    requires MshrBut(c, h, b) && r.mshr == h.mshr && QueueOk(c, h.mshr, h.queue)
    requires forall k :: 0 <= k < |h.queue| ==> h.queue[k].pkt.addr != b
    requires Evicted(c, h, r, b)
    ensures QueueOk(c, r.mshr, r.queue) && forall k :: 0 <= k < |r.queue| ==> r.queue[k].pkt.addr != b
  {
    hide IsBase, Resident, SubOk, RegionOk;
    if r.queue != h.queue {
      var q := r.queue[|h.queue|];
      forall k | 0 <= k < |h.queue| && !h.queue[k].pkt.isWrite ensures h.queue[k].pkt.addr != q.pkt.addr {
        assert QueueItemOk(c, h.mshr, h.queue[k]);
        var i :| 0 <= i < |h.mshr| && HoldsMiss(h.mshr[i], h.queue[k].pkt.addr);
        assert !HoldsMiss(h.mshr[i], b);
        assert EntryOk(c, h, h.mshr[i]);
      }
      assert forall k :: 0 <= k < |h.queue| ==> r.queue[k] == h.queue[k];
      assert forall k :: 0 <= k < |h.queue| ==> QueueItemOk(c, h.mshr, h.queue[k]);
    }
  }

  /** Clearing the answered entry. */
  lemma ClearEntry(c: Config, h: Hier, i: nat, b: Word)
    requires Shaped(c, h) && i < |h.mshr| && HoldsMiss(h.mshr[i], b) && MshrBut(c, h, b)
    requires QueueOk(c, h.mshr, h.queue) && forall k :: 0 <= k < |h.queue| ==> h.queue[k].pkt.addr != b
    ensures var r := SetEntry(c, h, i, Entry(false, 0, false, EmptySubs(c.subentries)));
            MshrOk(c, r) && QueueOk(c, r.mshr, r.queue)
  {
    hide IsBase, SubOk, RegionOk, HasRead, GetLocation, FindWay;
    var e := Entry(false, 0, false, EmptySubs(c.subentries));
    var r := SetEntry(c, h, i, e);
    assert NoneValid(e.subs);
    forall k | 0 <= k < |h.queue| ensures QueueItemOk(c, r.mshr, h.queue[k]) {
      assert QueueItemOk(c, h.mshr, h.queue[k]);
      if !h.queue[k].pkt.isWrite {
        var j :| 0 <= j < |h.mshr| && HoldsMiss(h.mshr[j], h.queue[k].pkt.addr);
        assert j != i;
        assert HoldsMiss(r.mshr[j], h.queue[k].pkt.addr);
      }
    }
    forall j | 0 <= j < |r.mshr| ensures EntryOk(c, r, r.mshr[j]) {
      if j != i { assert !HoldsMiss(h.mshr[j], b); assert EntryOk(c, h, h.mshr[j]); }
    }
  }
}
