/** Cache transparency: what a client of the cache reads is what the stores that
    the cache accepted before left there. */
module CacheTransparency {
  import opened Words
  import opened Isa
  import opened Packets
  import opened Geometry
  import opened CacheSpec
  import opened CacheInvariant
  import opened CacheProofs
  import opened CacheRuns
  import opened CacheOrder

  predicate WritesAt(p: Packet, x: int) {
    p.isWrite && p.addr <= x < p.addr + |p.data|
  }

  /** The byte that the last store to `x` in the trace left there. */
  function LastStored(init: Mem, trace: seq<Req>, x: int): Byte {
    if trace == [] then Get(init, x)
    else
      var p := trace[|trace| - 1].pkt;
      if WritesAt(p, x) then p.data[x - p.addr] else LastStored(init, trace[..|trace| - 1], x)
  }

  lemma {:induction false} ReplayIsLastStored(init: Mem, trace: seq<Req>, x: int)
    ensures Get(Replay(init, trace), x) == LastStored(init, trace, x)
  {
    if trace != [] {
      var n := |trace| - 1;
      ReplayIsLastStored(init, trace[..n], x);
      var p := trace[n].pkt;
      if p.isWrite { GetAfterWrite(Replay(init, trace[..n]), p.addr, p.data, x); }
    }
  }

  /** In a legal history each byte of a serviced read is the byte of the last
      store before it. */
  lemma LegalReads(init: Mem, trace: seq<Req>, k: nat, i: nat)
    requires Legal(init, trace) && k < |trace| && !trace[k].pkt.isWrite && i < trace[k].pkt.size
    ensures |trace[k].pkt.data| == trace[k].pkt.size
    ensures trace[k].pkt.data[i] == LastStored(init, trace[..k], trace[k].pkt.addr + i)
  {
    hide Replay, LastStored;
    var p := trace[k].pkt;
    assert p.data == ReadBytes(Replay(init, trace[..k]), p.addr, p.size);
    ReplayIsLastStored(init, trace[..k], p.addr + i);
  }

  // ---------------------------------------------------------------- one block

  /** A good packet stays in its block. */
  lemma WritesInBlock(c: Config, p: Packet, b: Word, x: int)
    requires ValidConfig(c) && PacketOk(c, p) && IsBase(c, b) && b <= x < b + c.blkSize && WritesAt(p, x)
    ensures Base(c, p.addr) == b
  {
    var b0 := Base(c, p.addr);
    BaseIsBase(c, p.addr);
    if b0 != b { BlocksApart(c, b0, b); }
    hide Base, GetLocation, RegionOk, IsBase;
  }

  /** What is stored in a block depends on the packets of that block alone. */
  lemma {:induction false} StoredInBlock(c: Config, init: Mem, t: seq<Req>, b: Word, x: int)
    requires ValidConfig(c) && TraceOk(c, t) && IsBase(c, b) && b <= x < b + c.blkSize
    ensures LastStored(init, t, x) == LastStored(init, OfBlock(c, t, b), x)
  {
    hide PacketOk, IsBase, ValidConfig, Base;
    if t != [] {
      var n := |t| - 1;
      var q := t[n];
      StoredInBlock(c, init, t[..n], b, x);
      if OnBlock(c, q, b) {
        var s := OfBlock(c, t, b);
        assert s == OfBlock(c, t[..n], b) + [Stripped(q)];
        assert s[..|s| - 1] == OfBlock(c, t[..n], b);
      } else {
        if WritesAt(q.pkt, x) { WritesInBlock(c, q.pkt, b, x); }
        assert OfBlock(c, t, b) == OfBlock(c, t[..n], b);
      }
    }
  }

  /** Packet `j` of a block, among the packets accepted. */
  lemma {:induction false} OfBlockAt(c: Config, log: seq<Req>, n: nat, b: Word, j: nat)
    requires LogOk(c, log, n) && j < |OfBlock(c, log, b)|
    ensures var s := OfBlock(c, log, b);
            var m := s[j].id;
            && m < |log| && OnBlock(c, log[m], b) && s[j] == Stripped(log[m]) && OfBlock(c, log[..m], b) == s[..j]
    decreases |log|
  {
    hide PacketOk, OnBlock;
    var k := |log| - 1;
    var s, s0 := OfBlock(c, log, b), OfBlock(c, log[..k], b);
    if j < |s0| {
      assert s[..|s0|] == s0;
      OfBlockAt(c, log[..k], k, b, j);
      assert log[..k][..s[j].id] == log[..s[j].id];
      assert s[..j] == s0[..j];
    } else {
      assert s == s0 + [Stripped(log[k])];
      assert s[..j] == s0;
    }
  }

  lemma OfBlockIncreases(c: Config, log: seq<Req>, n: nat, b: Word, i: nat, j: nat)
    requires LogOk(c, log, n) && i < j < |OfBlock(c, log, b)|
    ensures OfBlock(c, log, b)[i].id < OfBlock(c, log, b)[j].id
  {
    var s := OfBlock(c, log, b);
    OfBlockAt(c, log, n, b, j);
    var m := s[j].id;
    assert s[..j][i] == s[i];
    assert LogOk(c, log[..m], m);
    OfBlockAt(c, log[..m], m, b, i);
    hide OfBlock, PacketOk;
  }

  /** Where a serviced packet stands among the packets of its block. */
  lemma ServedAt(c: Config, t: seq<Req>, k: nat, b: Word)
    requires k < |t| && OnBlock(c, t[k], b)
    ensures var s := OfBlock(c, t, b);
            var j := |OfBlock(c, t[..k], b)|;
            j < |s| && s[j] == Stripped(t[k]) && s[..j] == OfBlock(c, t[..k], b)
  {
    hide OnBlock, OfBlock;
    var one, rest := [t[k]], t[k + 1..];
    assert t == t[..k] + (one + rest);
    OfBlockAppend(c, t[..k], one + rest, b);
    OfBlockAppend(c, one, rest, b);
    OfBlockOne(c, t[k], b);
  }

  lemma LogIsGood(c: Config, log: seq<Req>, n: nat, m: nat)
    requires LogOk(c, log, n) && m <= |log|
    ensures TraceOk(c, log[..m])
  {
    hide PacketOk;
  }

  lemma TracePrefix(c: Config, t: seq<Req>, k: nat)
    requires TraceOk(c, t) && k <= |t|
    ensures TraceOk(c, t[..k])
  {
    hide PacketOk;
  }

  /** The line of a block starts with the packets serviced. */
  lemma InLine(c: Config, h: Hier, b: Word, j: nat)
    requires j < |OfBlock(c, h.trace, b)|
    ensures var s := Line(c, h, h.pending, b);
            j < |s| && s[j] == OfBlock(c, h.trace, b)[j] && s[..j] == OfBlock(c, h.trace, b)[..j]
  {
    hide OfBlock, WaitingFor;
  }

  lemma InsideBlock(c: Config, q: Req, p: Req, i: nat)
    requires ValidConfig(c) && Stripped(q) == Stripped(p) && PacketOk(c, p.pkt) && i < q.pkt.size
    ensures IsBase(c, Base(c, q.pkt.addr)) && Base(c, q.pkt.addr) <= q.pkt.addr + i < Base(c, q.pkt.addr) + c.blkSize
  {
    BaseIsBase(c, q.pkt.addr);
    hide Base, IsBase, RegionOk, GetLocation;
  }

  // ------------------------------------------------------------- main results

  /** No packet overtakes another of its block: along the packets of a block
      that are serviced, then those that wait, then those in the queue, the
      order is that of acceptance. */
  lemma NoOvertaking(c: Config, init: Mem, es: seq<CacheEvent>, b: Word, i: nat, j: nat)
    requires ValidConfig(c) && forall k :: 0 <= k < |es| ==> EventOk(c, es[k])
    requires var h := RunHier(c, StartHier(c, init), Comparing, es); i < j < |Line(c, h, h.pending, b)|
    ensures var h := RunHier(c, StartHier(c, init), Comparing, es);
            Line(c, h, h.pending, b)[i].id < Line(c, h, h.pending, b)[j].id
  {
    hide RunHier, StartHier, ValidConfig, EventOk, Accepted, OfBlock, LogOk, Line, OrderOk;
    var h := RunHier(c, StartHier(c, init), Comparing, es);
    FirstComeFirstServed(c, init, es, b);
    OfBlockIncreases(c, Accepted(c, StartHier(c, init), Comparing, es), h.accepted, b, i, j);
  }

  /** A serviced packet is one of those accepted, and the packets of its block
      serviced before it are exactly those accepted before it. */
  lemma ServedInOrder(c: Config, init: Mem, es: seq<CacheEvent>, k: nat)
    requires ValidConfig(c) && forall j :: 0 <= j < |es| ==> EventOk(c, es[j])
    requires k < |RunHier(c, StartHier(c, init), Comparing, es).trace|
    ensures var t := RunHier(c, StartHier(c, init), Comparing, es).trace;
            var log := Accepted(c, StartHier(c, init), Comparing, es);
            var b := Base(c, t[k].pkt.addr);
            && t[k].id < |log| && Stripped(t[k]) == Stripped(log[t[k].id])
            && OfBlock(c, t[..k], b) == OfBlock(c, log[..t[k].id], b)
  {
    hide RunHier, StartHier, ValidConfig, EventOk, Accepted, PacketOk, OfBlock, Base, MissesInOrder, TraceOk, Line;
    var h := RunHier(c, StartHier(c, init), Comparing, es);
    var log := Accepted(c, StartHier(c, init), Comparing, es);
    var b := Base(c, h.trace[k].pkt.addr);
    FirstComeFirstServed(c, init, es, b);
    ServedAt(c, h.trace, k, b);
    var j := |OfBlock(c, h.trace[..k], b)|;
    InLine(c, h, b, j);
    OfBlockAt(c, log, h.accepted, b, j);
  }

  /** Cache transparency. However requests, services, ticks and victims
      interleave, and however many requests are outstanding: each byte of a
      serviced read is the byte of the last store to it that was accepted before
      the read. */
  lemma ReadsSeeLastStores(c: Config, init: Mem, es: seq<CacheEvent>, k: nat, i: nat)
    requires ValidConfig(c) && forall j :: 0 <= j < |es| ==> EventOk(c, es[j])
    requires var t := RunHier(c, StartHier(c, init), Comparing, es).trace;
             k < |t| && !t[k].pkt.isWrite && i < t[k].pkt.size
    ensures var t := RunHier(c, StartHier(c, init), Comparing, es).trace;
            var log := Accepted(c, StartHier(c, init), Comparing, es);
            var p := t[k].pkt;
            && t[k].id < |log| && Stripped(t[k]) == Stripped(log[t[k].id])
            && |p.data| == p.size && p.data[i] == LastStored(init, log[..t[k].id], p.addr + i)
  {
    hide RunHier, StartHier, ValidConfig, EventOk, Legal, Coherent, Conserved, HierOk, LastStored, Replay, Accepted,
         OfBlock, PacketOk, Base, IsBase, MissesInOrder, Line, TraceOk;
    var h := RunHier(c, StartHier(c, init), Comparing, es);
    var log := Accepted(c, StartHier(c, init), Comparing, es);
    var q := h.trace[k];
    var b := Base(c, q.pkt.addr);
    ServicesAreFlat(c, init, es);
    LegalReads(init, h.trace, k, i);
    ServedInOrder(c, init, es, k);
    FirstComeFirstServed(c, init, es, b);
    InsideBlock(c, q, log[q.id], i);
    TracePrefix(c, h.trace, k);
    LogIsGood(c, log, h.accepted, q.id);
    StoredInBlock(c, init, h.trace[..k], b, q.pkt.addr + i);
    StoredInBlock(c, init, log[..q.id], b, q.pkt.addr + i);
  }

  /** Nothing of block `b` is outstanding. */
  predicate Settled(c: Config, h: Hier, b: Word) {
    OfBlock(c, WaitingFor(h.mshr, b), b) == [] && OfBlock(c, h.pending, b) == []
  }

  lemma SettledLine(c: Config, h: Hier, b: Word)
    requires Settled(c, h, b)
    ensures Line(c, h, h.pending, b) == OfBlock(c, h.trace, b)
  {
    hide OfBlock, WaitingFor;
  }

  /** A block with nothing outstanding holds, in the cache or in the memory
      behind it, exactly what all accepted stores left there, in their order. */
  lemma SettledBlocks(c: Config, init: Mem, es: seq<CacheEvent>, b: Word)
    requires ValidConfig(c) && IsBase(c, b) && forall j :: 0 <= j < |es| ==> EventOk(c, es[j])
    requires Settled(c, RunHier(c, StartHier(c, init), Comparing, es), b)
    ensures var h := RunHier(c, StartHier(c, init), Comparing, es);
            var log := Accepted(c, StartHier(c, init), Comparing, es);
            BlockData(c, h, b) == ReadBytes(Replay(init, log), b, c.blkSize)
  {
    hide RunHier, StartHier, ValidConfig, EventOk, Legal, Conserved, HierOk, LastStored, Replay, Accepted, OfBlock,
         Settled, PacketOk, Base, IsBase, MissesInOrder, BlockData, ReadBytes, WaitingFor, TraceOk, Line;
    var h := RunHier(c, StartHier(c, init), Comparing, es);
    var log := Accepted(c, StartHier(c, init), Comparing, es);
    ServicesAreFlat(c, init, es);
    FirstComeFirstServed(c, init, es, b);
    SettledLine(c, h, b);
    LogIsGood(c, log, h.accepted, |log|);
    assert log[..|log|] == log;
    forall x | b <= x < b + c.blkSize ensures Get(Replay(init, h.trace), x) == Get(Replay(init, log), x) {
      ReplayIsLastStored(init, h.trace, x);
      ReplayIsLastStored(init, log, x);
      StoredInBlock(c, init, h.trace, b, x);
      StoredInBlock(c, init, log, b, x);
    }
    SameBytes(Replay(init, h.trace), Replay(init, log), b, c.blkSize);
  }
}
