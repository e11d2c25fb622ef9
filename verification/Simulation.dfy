/** The pipeline with its data cache over main memory, the entry lookup as
    written: the whole machine computes what the instruction set does. */
module Simulation {
  import opened Words
  import opened Isa
  import opened Packets
  import opened PredictorSpec
  import opened PipeSpec
  import opened IsaAgreement
  import opened PipeSystem
  import opened PipeInvariant
  import opened PipeStages
  import opened PipeCycle
  import opened PipeRuns
  import opened Geometry
  import opened CacheSpec
  import opened CacheInvariant
  import opened CacheRuns
  import opened CacheL1D

  datatype SimState = SimState(pipe: Pipe, hier: Hier, fetches: seq<Packet>)

  /** Main memory, the cache and the clock move; the core runs a cycle; the
      instruction memory, free to refuse, answers a fetch. */
  datatype SimEvent =
    | MemoryMoves(e: CacheEvent)
    | CoreCycle(acceptInst: bool)
    | FetchAnswer(j: nat)

  /** Hands the packets serviced since `n` to the core. */
  function Delivered(p: Pipe, trace: seq<Req>, n: nat): Pipe
    decreases |trace| - n
  {
    if n >= |trace| then p
    else if !trace[n].pkt.isWrite && |trace[n].pkt.data| != trace[n].pkt.size then
      Delivered(p.(crashed := true), trace, n + 1)
    else Delivered(RecvResp(p, trace[n].pkt), trace, n + 1)
  }

  function NextFull(m: Machine, c: Config, f: SimState, e: SimEvent): (r: SimState)
    requires Shaped(c, f.hier)
    ensures Shaped(c, r.hier)
  {
    match e
    case MemoryMoves(e) =>
      if e.Submitted? then f
      else
        var h := NextHier(c, f.hier, AsWritten, e);
        f.(hier := h, pipe := Delivered(f.pipe, h.trace, |f.hier.trace|))
    case CoreCycle(acceptInst) =>
      if !f.pipe.run then f
      else
        var r := Cycle(m, f.pipe, |f.hier.pending| < CAPACITY, acceptInst);
        var h := if r.data.Some? then Submit(c, f.hier, r.data.value).0 else f.hier;
        SimState(r.pipe, h, Added(f.fetches, r.inst, acceptInst))
    case FetchAnswer(j) =>
      if j >= |f.fetches| then f
      else f.(pipe := RecvResp(f.pipe, Fetched(m.text, f.fetches[j])), fetches := Without(f.fetches, j))
  }

  function RunFull(m: Machine, c: Config, f: SimState, es: seq<SimEvent>): (r: SimState)
    requires Shaped(c, f.hier)
    ensures Shaped(c, r.hier)
    decreases |es|
  {
    if es == [] then f else NextFull(m, c, RunFull(m, c, f, es[..|es| - 1]), es[|es| - 1])
  }

  function StartFull(c: Config, bp: Predictor, init: Mem): (f: SimState)
    ensures Shaped(c, f.hier)
  {
    SimState(Start(bp), StartHier(c, init), [])
  }

  /** The instruction is supported and its data request, if any, lies in one
      block of a memory region; or it comes right after an exit syscall. */
  predicate PlacedAt(r: Ref, c: Config, k: nat) {
    || (Supported(r.m.text, r.At(k)) &&
        (AccessOf(r.m.text, r.At(k)).Some? ==> PacketOk(c, AccessOf(r.m.text, r.At(k)).value)))
    || (k > 0 && Exits(r.m.text, r.At(k - 1)))
  }

  predicate GoodAndPlaced(r: Ref, c: Config, n: nat) {
    forall k: nat :: k < n ==> PlacedAt(r, c, k)
  }

  /** The whole machine stands for a pipeline over a flat memory. */
  ghost predicate Sim(c: Config, f: SimState, s: Sys, init: Mem) {
    && Shaped(c, f.hier) && f.pipe == s.pipe && f.fetches == s.fetches
    && HierOk(c, f.hier, init) && f.hier.mshr != [] && SingleOk(f.hier)
    && s.mem == Replay(init, f.hier.trace)
    && |s.dataReqs| == |Outstanding(f.hier)|
    && forall k :: 0 <= k < |s.dataReqs| ==> s.dataReqs[k] == Outstanding(f.hier)[k].pkt
  }

  // ------------------------------------------------------------- data requests

  /** A cycle offers a data request only when none is outstanding, and it is the
      request of the next instruction of the run. */
  lemma CycleOffers(r: Ref, p: Pipe, mem: Mem, reqs: seq<Packet>, acceptData: bool, acceptInst: bool)
    requires p.run && PipeOk(r, p, mem, reqs)
    requires Cycle(r.m, p, acceptData, acceptInst).data.Some?
    ensures var k := MemIndex(p);
            && reqs == [] && Cycle(r.m, p, acceptData, acceptInst).data == AccessOf(r.m.text, r.At(k))
            && Supported(r.m.text, r.At(k)) && (k > 0 ==> !Exits(r.m.text, r.At(k - 1)))
            && p.memOp.Some?
  {
    hide Run, MemStage, MemOk, FrontOk, PathOk, WbOk, DecodeStage, ExecuteStage, WbStage, AccessOf, Supported, Exits,
         FetchStage;
    if Draining(p) {
      HaltKeeps(r, p, mem, reqs);
    } else {
      WbKeeps(r, p, mem, reqs);
      WbCounts(p);
      MemOffers(r, WbStage(p), mem, reqs, acceptData);
    }
  }

  lemma WbCounts(p: Pipe)
    ensures WbStage(p).retired == MemIndex(p) && WbStage(p).memOp == p.memOp
  {
  }

  lemma MemOffers(r: Ref, p: Pipe, mem: Mem, reqs: seq<Packet>, accept: bool)
    requires p.run && WbOk(r, p) && p.wbOp.None? && MemOk(r, p, mem, reqs) && MemStage(p, accept).1.Some?
    ensures var k := p.retired;
            && reqs == [] && MemStage(p, accept).1 == AccessOf(r.m.text, r.At(k))
            && Supported(r.m.text, r.At(k)) && (k > 0 ==> !Exits(r.m.text, r.At(k - 1)))
            && p.memOp.Some?
  {
    hide Completed, Step, Exits, Run, GoodAccess, AccessOf, Bypassed, DataPacket, Supported, Opcode, Rs, Rt, Imm,
         AccessAddr;
    if p.memOp.Some? && p.memOp.value.isMem {
      var op := p.memOp.value;
      FirstOffer(r, p, op);
    }
  }

  /** An aligned access stays inside a block whose size is a multiple of 4. */
  lemma AlignedFits(c: Config, a: Word, n: nat)
    requires ValidConfig(c) && c.blkSize % 4 == 0 && (n == 1 || n == 2 || n == 4) && a % n == 0
    ensures a % c.blkSize + n <= c.blkSize
  {
    DivMod(a, c.blkSize);
    var q := c.blkSize / 4;
    Quads(q, a / c.blkSize);
    LastSlot(a, a % c.blkSize, q, q * (a / c.blkSize), n);
  }

  lemma Quads(q: nat, d: nat)
    ensures (4 * q) * d == 4 * (q * d)
  {
  }

  lemma LastSlot(a: nat, o: nat, q: nat, k: nat, n: nat)
    requires a == 4 * k + o && o < 4 * q && (n == 1 || n == 2 || n == 4) && a % n == 0
    ensures o + n <= 4 * q
  {
    if n == 1 {} else if n == 2 {} else {}
  }

  lemma LoadIsPlaced(c: Config, a: Word)
    requires ValidConfig(c) && c.blkSize % 4 == 0 && RegionOk(c, Base(c, a))
    ensures PacketOk(c, Packet(false, LoadPacket, a / 4 * 4, 4, [0, 0, 0, 0]))
  {
    hide RegionOk, GetLocation, Base;
    var w := a / 4 * 4;
    assert GetLocation(c, w).offset + 4 <= c.blkSize by {
      LocationIsSplit(c, w);
      AlignedFits(c, w, 4);
    }
    SameBase(c, a);
  }

  lemma StoreIsPlaced(c: Config, a: Word, size: Size, d: seq<Byte>)
    requires ValidConfig(c) && c.blkSize % 4 == 0 && RegionOk(c, Base(c, a)) && a % Bytes(size) == 0
             && |d| == Bytes(size)
    ensures PacketOk(c, Packet(true, StorePacket, a, Bytes(size), d))
  {
    hide RegionOk, GetLocation, Base;
    assert GetLocation(c, a).offset + Bytes(size) <= c.blkSize by {
      LocationIsSplit(c, a);
      AlignedFits(c, a, Bytes(size));
    }
  }

  /** An aligned access in a region, with blocks of whole words, is a request
      inside one block. */
  lemma AccessIsGood(c: Config, text: Text, t: Arch)
    requires Decode(text(t.pc)).Load? || Decode(text(t.pc)).Store?
    requires ValidConfig(c) && c.blkSize % 4 == 0 && RegionOk(c, Base(c, AccessAddr(text, t)))
    requires AccessAddr(text, t) % Bytes(Decode(text(t.pc)).size) == 0
    ensures AccessOf(text, t).Some? && PacketOk(c, AccessOf(text, t).value)
  {
    hide Opcode, Rs, Rt, Imm, SignExtend16, RegionOk, ByteOf, Decode, Read, Wrap, Base, PacketOk, AccessAddr;
    if Decode(text(t.pc)).Load? {
      LoadIsPlaced(c, AccessAddr(text, t));
    } else {
      var i := Decode(text(t.pc));
      StoreIsPlaced(c, AccessAddr(text, t), i.size, StoreBytes(i.size, Read(t.regs, i.rt)));
    }
  }

  /** Rounding down to a word stays in the block. */
  lemma SameBase(c: Config, a: Word)
    requires ValidConfig(c) && c.blkSize % 4 == 0
    ensures Base(c, a / 4 * 4) == Base(c, a)
  {
    DivMod(a, c.blkSize);
    var q, d, o := c.blkSize / 4, a / c.blkSize, a % c.blkSize;
    Quads(q, d);
    assert a == 4 * (q * d) + o;
    WordInBlock(a, o, q * d);
    assert a / 4 * 4 == d * c.blkSize + o / 4 * 4;
    DivUnique(a / 4 * 4, c.blkSize, d, o / 4 * 4);
  }

  lemma WordInBlock(a: nat, o: nat, k: nat)
    requires a == 4 * k + o
    ensures a / 4 * 4 == 4 * k + o / 4 * 4
  {
  }

  // ---------------------------------------------------------------- simulation

  lemma ServedPacket(init: Mem, trace: seq<Req>, q: Req, t: Req)
    requires trace != [] && trace[|trace| - 1] == t && Legal(init, trace) && ServedAs(q, t)
    ensures var flat := Replay(init, trace[..|trace| - 1]);
            t.pkt == Served(flat, q.pkt) && Replay(init, trace) == After(flat, q.pkt)
  {
    hide ReadBytes, WriteBytes;
  }

  lemma DeliverOne(p: Pipe, trace: seq<Req>)
    requires trace != [] && (!trace[|trace| - 1].pkt.isWrite ==>
             |trace[|trace| - 1].pkt.data| == trace[|trace| - 1].pkt.size)
    ensures Delivered(p, trace, |trace| - 1) == RecvResp(p, trace[|trace| - 1].pkt)
  {
    hide RecvResp;
  }

  /** A move of the memories is nothing to the core, or the reply to its request
      as a flat memory would give it. */
  lemma MoveSimulates(r: Ref, c: Config, f: SimState, s: Sys, e: CacheEvent, init: Mem)
    requires Inv(r, s) && Sim(c, f, s, init) && !e.Submitted?
    ensures var g := NextFull(r.m, c, f, MemoryMoves(e));
            Sim(c, g, if |g.hier.trace| == |f.hier.trace| then s else AfterData(s, 0), init)
  {
    hide HierOk, SingleOk, Outstanding, NextHier, RecvResp, Inv, Served, After, Replay, Legal;
    var h := f.hier;
    SingleStep(c, h, e, init);
    var h' := NextHier(c, h, AsWritten, e);
    if |h'.trace| != |h.trace| {
      var q := Outstanding(h)[0];
      var t := h'.trace[|h.trace|];
      LegalNow(c, h', init);
      ServedPacket(init, h'.trace, q, t);
      ServedSize(s.mem, q.pkt);
      DeliverOne(f.pipe, h'.trace);
      assert s.dataReqs[0] == q.pkt;
    }
  }

  lemma LegalNow(c: Config, h: Hier, init: Mem)
    requires HierOk(c, h, init)
    ensures Legal(init, h.trace) && !h.crashed && ValidConfig(c)
  {
    hide Legal;
  }

  /** A cycle of the core submits the request it offers. */
  lemma CycleSimulates(r: Ref, c: Config, f: SimState, s: Sys, acceptInst: bool, init: Mem)
    requires Inv(r, s) && Sim(c, f, s, init)
    requires GoodAndPlaced(r, c, ExecIndex(NextFull(r.m, c, f, CoreCycle(acceptInst)).pipe))
    ensures Sim(c, NextFull(r.m, c, f, CoreCycle(acceptInst)), AfterClock(r.m, s, true, acceptInst), init)
  {
    hide HierOk, Cycle, PipeOk, RefLog, AccessLog, GoodAndPlaced, Replay, Waiting, Outstanding;
    var h := f.hier;
    if s.pipe.run {
      assert |h.pending| < CAPACITY by { FewPending(h); }
      LegalNow(c, h, init);
      var x := Cycle(r.m, s.pipe, true, acceptInst);
      if x.data.Some? {
        CycleOffers(r, s.pipe, s.mem, s.dataReqs, true, acceptInst);
        OfferIsGood(r, c, s, acceptInst);
        SubmitSimulates(c, h, x.data.value, init);
      }
    }
  }

  lemma FewPending(h: Hier)
    requires SingleOk(h)
    ensures |h.pending| < CAPACITY
  {
    hide Waiting;
  }

  lemma SubmitSimulates(c: Config, h: Hier, pkt: Packet, init: Mem)
    requires Shaped(c, h) && HierOk(c, h, init) && SingleOk(h) && Outstanding(h) == [] && PacketOk(c, pkt)
    ensures var g := Submit(c, h, pkt).0;
            && Shaped(c, g) && HierOk(c, g, init) && g.mshr != [] && SingleOk(g) && g.trace == h.trace
            && |Outstanding(g)| == 1 && Outstanding(g)[0].pkt == pkt
  {
    hide HierOk, SingleOk, Outstanding, PacketOk;
    LegalNow(c, h, init);
    SingleStep(c, h, Submitted(pkt), init);
    assert NextHier(c, h, AsWritten, Submitted(pkt)) == Submit(c, h, pkt).0;
  }

  lemma OfferIsGood(r: Ref, c: Config, s: Sys, acceptInst: bool)
    requires s.pipe.run && PipeOk(r, s.pipe, s.mem, s.dataReqs) && ValidConfig(c)
    requires var x := Cycle(r.m, s.pipe, true, acceptInst);
             x.data.Some? && GoodAndPlaced(r, c, ExecIndex(x.pipe))
    ensures PacketOk(c, Cycle(r.m, s.pipe, true, acceptInst).data.value)
  {
    hide Cycle, PipeOk, Run, AccessOf, Supported, Exits, PacketOk;
    CycleOffers(r, s.pipe, s.mem, s.dataReqs, true, acceptInst);
    CycleMonotone(r.m, s.pipe, true, acceptInst);
    assert PlacedAt(r, c, MemIndex(s.pipe));
  }

  lemma FetchSimulates(r: Ref, c: Config, f: SimState, s: Sys, j: nat, init: Mem)
    requires Sim(c, f, s, init)
    ensures Sim(c, NextFull(r.m, c, f, FetchAnswer(j)), AfterFetch(r.m, s, j), init)
  {
    hide HierOk, SingleOk, Outstanding, RecvResp, Replay;
  }

  /** The event of a pipeline over a flat memory that a machine event stands
      for, if any. */
  function Shadow(m: Machine, c: Config, f: SimState, e: SimEvent): seq<Event>
    requires Shaped(c, f.hier)
  {
    match e
    case MemoryMoves(_) => if |NextFull(m, c, f, e).hier.trace| == |f.hier.trace| then [] else [AnswerData(0)]
    case CoreCycle(acceptInst) => [Clock(true, acceptInst)]
    case FetchAnswer(j) => [AnswerFetch(j)]
  }

  function Shadows(m: Machine, c: Config, f: SimState, es: seq<SimEvent>): seq<Event>
    requires Shaped(c, f.hier)
    decreases |es|
  {
    if es == [] then []
    else Shadows(m, c, f, es[..|es| - 1]) + Shadow(m, c, RunFull(m, c, f, es[..|es| - 1]), es[|es| - 1])
  }

  /** One event of the whole machine. */
  lemma StepSimulates(r: Ref, c: Config, f: SimState, s: Sys, e: SimEvent, init: Mem)
    requires Inv(r, s) && Sim(c, f, s, init)
    requires GoodAndPlaced(r, c, ExecIndex(NextFull(r.m, c, f, e).pipe))
    ensures var es := Shadow(r.m, c, f, e);
            Sim(c, NextFull(r.m, c, f, e), if es == [] then s else Next(r.m, s, es[0]), init)
  {
    hide Sim, Inv, AfterClock, AfterData, AfterFetch, GoodAndPlaced;
    match e
    case MemoryMoves(e) =>
      if e.Submitted? { assert NextFull(r.m, c, f, MemoryMoves(e)) == f; } else { MoveSimulates(r, c, f, s, e, init); }
    case CoreCycle(acceptInst) => CycleSimulates(r, c, f, s, acceptInst, init);
    case FetchAnswer(j) => FetchSimulates(r, c, f, s, j, init);
  }

  lemma {:induction false} DeliveredMonotone(p: Pipe, trace: seq<Req>, n: nat)
    ensures ExecIndex(Delivered(p, trace, n)) == ExecIndex(p)
    decreases |trace| - n
  {
    hide RecvResp;
    if n < |trace| {
      if trace[n].pkt.isWrite || |trace[n].pkt.data| == trace[n].pkt.size {
        ReplyMonotone(p, trace[n].pkt);
        DeliveredMonotone(RecvResp(p, trace[n].pkt), trace, n + 1);
      } else {
        DeliveredMonotone(p.(crashed := true), trace, n + 1);
      }
    }
  }

  lemma FullMonotone(m: Machine, c: Config, f: SimState, e: SimEvent)
    requires Shaped(c, f.hier)
    ensures ExecIndex(f.pipe) <= ExecIndex(NextFull(m, c, f, e).pipe)
  {
    hide Cycle, RecvResp, Delivered, NextHier, Fetched, ExecIndex;
    match e
    case MemoryMoves(e) =>
      if !e.Submitted? { DeliveredMonotone(f.pipe, NextHier(c, f.hier, AsWritten, e).trace, |f.hier.trace|); }
    case CoreCycle(acceptInst) => CycleMonotone(m, f.pipe, |f.hier.pending| < CAPACITY, acceptInst);
    case FetchAnswer(j) =>
      if j < |f.fetches| {
        FetchedSize(m.text, f.fetches[j]);
        ReplyMonotone(f.pipe, Fetched(m.text, f.fetches[j]));
      }
  }

  lemma PlacedIsGood(r: Ref, c: Config, n: nat)
    requires GoodAndPlaced(r, c, n)
    ensures Good(r, n)
  {
    hide Supported, Exits, AccessOf, PacketOk, Run;
    forall k: nat | k < n ensures GoodAt(r, k) { assert PlacedAt(r, c, k); }
  }

  lemma StartSimulates(m: Machine, c: Config, bp: Predictor, init: Mem)
    requires ValidConfig(c) && EmptyBtb(bp)
    ensures Inv(Ref(m, StartArch(init)), StartSys(bp, init))
    ensures Sim(c, StartFull(c, bp, init), StartSys(bp, init), init)
  {
    StartHolds(m, bp, init);
    StartOk(c, init);
    hide HierOk, Inv, ValidConfig;
  }

  /** Every run of the whole machine is a run of the pipeline over a flat memory. */
  lemma {:induction false} RunSimulates(m: Machine, c: Config, bp: Predictor, init: Mem, es: seq<SimEvent>)
    requires ValidConfig(c) && EmptyBtb(bp)
    requires GoodAndPlaced(Ref(m, StartArch(init)), c, ExecIndex(RunFull(m, c, StartFull(c, bp, init), es).pipe))
    ensures var f0 := StartFull(c, bp, init);
            var s := RunSys(m, StartSys(bp, init), Shadows(m, c, f0, es));
            Inv(Ref(m, StartArch(init)), s) && Sim(c, RunFull(m, c, f0, es), s, init)
    decreases |es|
  {
    hide Inv, Sim, NextFull, Next, ExecIndex, StartFull, StartSys, Shadow, ValidConfig, EmptyBtb;
    var r := Ref(m, StartArch(init));
    var f0 := StartFull(c, bp, init);
    if es == [] {
      StartSimulates(m, c, bp, init);
    } else {
      var n := |es| - 1;
      var f := RunFull(m, c, f0, es[..n]);
      FullMonotone(m, c, f, es[n]);
      assert GoodAndPlaced(r, c, ExecIndex(f.pipe));
      RunSimulates(m, c, bp, init, es[..n]);
      var s := RunSys(m, StartSys(bp, init), Shadows(m, c, f0, es[..n]));
      StepSimulates(r, c, f, s, es[n], init);
      var x := Shadow(m, c, f, es[n]);
      assert Shadows(m, c, f0, es) == Shadows(m, c, f0, es[..n]) + x;
      if x != [] {
        ShadowIsOne(m, c, f, es[n]);
        RunOneMore(m, StartSys(bp, init), Shadows(m, c, f0, es[..n]), x[0]);
        SimPipe(c, RunFull(m, c, f0, es), Next(m, s, x[0]), init);
        PlacedIsGood(r, c, ExecIndex(RunFull(m, c, f0, es).pipe));
        EventKeeps(r, s, x[0]);
      } else {
        assert Shadows(m, c, f0, es[..n]) + x == Shadows(m, c, f0, es[..n]);
      }
    }
  }

  lemma ShadowIsOne(m: Machine, c: Config, f: SimState, e: SimEvent)
    requires Shaped(c, f.hier) && Shadow(m, c, f, e) != []
    ensures Shadow(m, c, f, e) == [Shadow(m, c, f, e)[0]]
  {
    hide NextFull;
  }

  lemma SimPipe(c: Config, f: SimState, s: Sys, init: Mem)
    requires Sim(c, f, s, init)
    ensures f.pipe == s.pipe && HierOk(c, f.hier, init) && s.mem == Replay(init, f.hier.trace)
  {
    hide HierOk;
  }

  /** The whole machine computes the instruction set. For any program, initial
      memory, predictor sizes, cache geometry, delays, victim choices and fetch
      timing: no assertion fails; the register file is that of the sequential
      machine after exactly the retired instructions; and once the program has
      exited, the cache with its memory holds exactly the sequential machine's
      memory, byte for byte. */
  lemma SimulatorComputesIsa(m: Machine, c: Config, bp: Predictor, init: Mem, es: seq<SimEvent>)
    requires ValidConfig(c) && EmptyBtb(bp)
    requires GoodAndPlaced(Ref(m, StartArch(init)), c, ExecIndex(RunFull(m, c, StartFull(c, bp, init), es).pipe))
    ensures var r := Ref(m, StartArch(init));
            var f := RunFull(m, c, StartFull(c, bp, init), es);
            var n := f.pipe.retired;
            && !f.pipe.crashed && !f.hier.crashed
            && f.pipe.regs == r.At(n).regs
            && (!f.pipe.run ==>
                 && n > 0 && Exits(m.text, r.At(n - 1)) && NoExitYet(r, n - 1)
                 && f.pipe.pc == r.At(n - 1).pc
                 && Coherent(c, f.hier, r.At(n).mem)
                 && HiLoAfterExit(m, r.At(n), f.pipe))
  {
    hide Inv, Sim, RunFull, StartFull, StartSys, Shadows, RunSys, GoodAndPlaced, ValidConfig, EmptyBtb, Exits, Run,
         HiLoAfterExit;
    var r := Ref(m, StartArch(init));
    var f := RunFull(m, c, StartFull(c, bp, init), es);
    var s := RunSys(m, StartSys(bp, init), Shadows(m, c, StartFull(c, bp, init), es));
    RunSimulates(m, c, bp, init, es);
    SimPipe(c, f, s, init);
    InvShows(r, s);
    CoherentNow(c, f.hier, init);
    if !f.pipe.run { StoppedFirst(r, s); }
  }

  lemma CoherentNow(c: Config, h: Hier, init: Mem)
    requires HierOk(c, h, init)
    ensures Shaped(c, h) && Coherent(c, h, Replay(init, h.trace)) && !h.crashed
  {
    hide Coherent, Replay, Legal;
  }

  lemma StoppedFirst(r: Ref, s: Sys)
    requires Inv(r, s) && !s.pipe.run && s.pipe.retired > 0
    ensures NoExitYet(r, s.pipe.retired - 1)
  {
    hide PipeOk, NoExitYet, RefLog, AccessLog;
  }
}
