/** The simulator as the object that owns core, data cache and main memory, and
    what its run computes. */
module SimulatorLoop {
  import opened Isa
  import opened Packets
  import opened PredictorSpec
  import opened BranchPredictor
  import opened PipeSpec
  import opened PipeSystem
  import opened PipeRuns
  import opened Pipeline
  import opened Geometry
  import opened CacheSpec
  import opened CacheRuns
  import opened CacheFrames
  import opened MemoryHierarchy
  import opened Simulation

  /** What one cycle takes from outside: the draws of the victim choice, whether
      instruction memory accepts, and which fetches it answers. */
  datatype Inputs = Inputs(rand: nat -> nat, acceptInst: bool, answers: seq<nat>)

  /** The services of one tick of main memory. */
  function MemoryEvents(c: Config, h: Hier, rand: nat -> nat, n: nat): seq<SimEvent>
    requires Shaped(c, h)
    decreases Work(h.queue)
  {
    if h.crashed || h.queue == [] || h.queue[0].ready > h.now then []
    else
      WorkDecreases(c, h, AsWritten, rand(n));
      [MemoryMoves(MemoryServes(rand(n)))] + MemoryEvents(c, MemServe(c, h, AsWritten, rand(n)), rand, n + 1)
  }

  function AnswerEvents(answers: seq<nat>): seq<SimEvent> {
    seq(|answers|, i requires 0 <= i < |answers| => FetchAnswer(answers[i]))
  }

  /** Everything that happens in one cycle, in the order of the source. */
  function CycleEvents(c: Config, h: Hier, x: Inputs): seq<SimEvent>
    requires Shaped(c, h)
  {
    MemoryEvents(c, h, x.rand, 0) + [MemoryMoves(CacheTicks)] + AnswerEvents(x.answers)
    + [CoreCycle(x.acceptInst)] + [MemoryMoves(TimePasses)]
  }

  // --------------------------------------------------------------------- runs

  lemma RunOne(m: Machine, c: Config, f: SimState, es: seq<SimEvent>, e: SimEvent)
    requires Shaped(c, f.hier)
    ensures RunFull(m, c, f, es + [e]) == NextFull(m, c, RunFull(m, c, f, es), e)
  {
    assert (es + [e])[..|es|] == es;
    hide NextFull;
  }

  lemma RunNone(m: Machine, c: Config, f: SimState)
    requires Shaped(c, f.hier)
    ensures RunFull(m, c, f, []) == f
  {
    hide NextFull;
  }

  lemma RunShaped(m: Machine, c: Config, f: SimState, es: seq<SimEvent>)
    requires Shaped(c, f.hier)
    ensures Shaped(c, RunFull(m, c, f, es).hier)
  {
  }

  lemma {:induction false} RunAppend(m: Machine, c: Config, f: SimState, p: seq<SimEvent>, q: seq<SimEvent>)
    requires Shaped(c, f.hier)
    ensures Shaped(c, RunFull(m, c, f, p).hier)
    ensures RunFull(m, c, f, p + q) == RunFull(m, c, RunFull(m, c, f, p), q)
    decreases |q|
  {
    hide *;
    RunShaped(m, c, f, p);
    if q == [] {
      assert p + q == p;
      RunNone(m, c, RunFull(m, c, f, p));
    } else {
      var n := |q| - 1;
      RunAppend(m, c, f, p, q[..n]);
      assert p + q == (p + q[..n]) + [q[n]] && q == q[..n] + [q[n]];
      RunOne(m, c, f, p + q[..n], q[n]);
      RunOne(m, c, RunFull(m, c, f, p), q[..n], q[n]);
    }
  }

  lemma RunSingle(m: Machine, c: Config, f: SimState, e: SimEvent)
    requires Shaped(c, f.hier)
    ensures RunFull(m, c, f, [e]) == NextFull(m, c, f, e)
  {
    RunOne(m, c, f, [], e);
    RunNone(m, c, f);
    assert [] + [e] == [e];
    hide *;
  }

  /** Handing over the replies at once or in two parts is the same. */
  lemma {:induction false} DeliveredSplit(p: Pipe, t: seq<Req>, u: seq<Req>, n: nat)
    requires |t| <= |u| && u[..|t|] == t && n <= |t|
    ensures Delivered(p, u, n) == Delivered(Delivered(p, t, n), u, |t|)
    decreases |t| - n
  {
    hide RecvResp;
    if n < |t| {
      assert u[n] == t[n];
      var q := if !t[n].pkt.isWrite && |t[n].pkt.data| != t[n].pkt.size then p.(crashed := true)
          else RecvResp(p, t[n].pkt);
      DeliveredSplit(q, t, u, n + 1);
    }
  }

  lemma {:induction false} MemTickGrows(c: Config, h: Hier, rand: nat -> nat, n: nat)
    requires Shaped(c, h)
    ensures Extends(h.trace, MemTick(c, h, rand, n).trace)
    decreases Work(h.queue)
  {
    hide MemServe, Work;
    if !(h.crashed || h.queue == [] || h.queue[0].ready > h.now) {
      var g := MemServe(c, h, AsWritten, rand(n));
      WorkDecreases(c, h, AsWritten, rand(n));
      ServeFrame(c, h, AsWritten, rand(n));
      MemTickGrows(c, g, rand, n + 1);
      var t := MemTick(c, g, rand, n + 1).trace;
      assert t[..|h.trace|] == t[..|g.trace|][..|h.trace|];
    }
  }

  /** The front packet is ready in a memory that has not failed. */
  predicate FrontReady(h: Hier) {
    !h.crashed && h.queue != [] && h.queue[0].ready <= h.now
  }

  lemma TickSteps(c: Config, h: Hier, rand: nat -> nat, n: nat)
    requires Shaped(c, h)
    ensures !FrontReady(h) ==> MemTick(c, h, rand, n) == h && MemoryEvents(c, h, rand, n) == []
    ensures FrontReady(h) ==>
              var g := MemServe(c, h, AsWritten, rand(n));
              && MemTick(c, h, rand, n) == MemTick(c, g, rand, n + 1)
              && MemoryEvents(c, h, rand, n) == [MemoryMoves(MemoryServes(rand(n)))] + MemoryEvents(c, g, rand, n + 1)
  {
    hide MemServe, Work;
  }

  lemma ServiceIsEvent(m: Machine, c: Config, f: SimState, choice: nat)
    requires Shaped(c, f.hier) && FrontReady(f.hier)
    ensures var g := MemServe(c, f.hier, AsWritten, choice);
            NextFull(m, c, f, MemoryMoves(MemoryServes(choice)))
                == f.(hier := g, pipe := Delivered(f.pipe, g.trace, |f.hier.trace|))
  {
    hide MemServe, Delivered;
  }

  lemma NothingDelivered(p: Pipe, t: seq<Req>)
    ensures Delivered(p, t, |t|) == p
  {
  }

  lemma DeliveredOn(p: Pipe, was: seq<Req>, t: seq<Req>, u: seq<Req>)
    requires Extends(was, t) && Extends(t, u)
    ensures Delivered(p, u, |was|) == Delivered(Delivered(p, t, |was|), u, |t|)
  {
    hide Delivered;
    DeliveredSplit(p, t, u, |was|);
  }

  lemma ServiceGoesOn(c: Config, h: Hier, choice: nat)
    requires Shaped(c, h) && FrontReady(h)
    ensures h.queue != []
    ensures var g := MemServe(c, h, AsWritten, choice);
            Shaped(c, g) && Extends(h.trace, g.trace) && Work(g.queue) < Work(h.queue)
  {
    ServeFrame(c, h, AsWritten, choice);
    WorkDecreases(c, h, AsWritten, choice);
    hide MemServe, Work, Extends;
  }

  /** A tick of main memory is its services one by one, and the core gets the
      replies. */
  lemma {:induction false} MemoryIsRun(m: Machine, c: Config, f: SimState, rand: nat -> nat, n: nat)
    requires Shaped(c, f.hier)
    ensures var h := MemTick(c, f.hier, rand, n);
            RunFull(m, c, f, MemoryEvents(c, f.hier, rand, n))
                == f.(hier := h, pipe := Delivered(f.pipe, h.trace, |f.hier.trace|))
    decreases Work(f.hier.queue)
  {
    hide *;
    var h := f.hier;
    TickSteps(c, h, rand, n);
    if FrontReady(h) {
      var e := MemoryMoves(MemoryServes(rand(n)));
      ServiceGoesOn(c, h, rand(n));
      var g := MemServe(c, h, AsWritten, rand(n));
      var f1 := f.(hier := g, pipe := Delivered(f.pipe, g.trace, |h.trace|));
      ServiceIsEvent(m, c, f, rand(n));
      MemoryIsRun(m, c, f1, rand, n + 1);
      MemTickGrows(c, g, rand, n + 1);
      DeliveredOn(f.pipe, h.trace, g.trace, MemTick(c, g, rand, n + 1).trace);
      RunSingle(m, c, f, e);
      RunAppend(m, c, f, [e], MemoryEvents(c, g, rand, n + 1));
    } else {
      RunNone(m, c, f);
      NothingDelivered(f.pipe, h.trace);
    }
  }

  // --------------------------------------------------------------- discipline

  lemma {:induction false} ProcessAllTimes(c: Config, h: Hier, todo: seq<Req>)
    requires Shaped(c, h)
    ensures var (r, kept) := ProcessAll(c, h, todo);
            r.now == h.now && forall i :: 0 <= i < |kept| ==> kept[i].ready == h.now + 1
    decreases |todo|
  {
    hide ProcessReady;
    if todo != [] {
      var n := |todo| - 1;
      ProcessAllTimes(c, h, todo[..n]);
      var (h1, kept) := ProcessAll(c, h, todo[..n]);
      ReadyFrame(c, h1, todo[n]);
    }
  }

  lemma TickKeepsDiscipline(c: Config, h: Hier)
    requires Shaped(c, h) && Disciplined(c, h)
    ensures Disciplined(c, CacheTick(c, h))
  {
    hide ProcessAll, Disciplined;
    var k := ReadyPrefix(h.pending, h.now);
    ProcessAllTimes(c, h, h.pending[..k]);
    TickDiscipline(c, h, k, ProcessAll(c, h, h.pending[..k]).1, CacheTick(c, h));
  }

  lemma {:induction false} MemTickFrame(c: Config, h: Hier, rand: nat -> nat, n: nat)
    requires Shaped(c, h)
    ensures MemTick(c, h, rand, n).pending == h.pending && MemTick(c, h, rand, n).now == h.now
    decreases Work(h.queue)
  {
    hide MemServe, Work;
    if !(h.crashed || h.queue == [] || h.queue[0].ready > h.now) {
      WorkDecreases(c, h, AsWritten, rand(n));
      ServeFrame(c, h, AsWritten, rand(n));
      MemTickFrame(c, MemServe(c, h, AsWritten, rand(n)), rand, n + 1);
    }
  }

  // ------------------------------------------------------------------- object

  lemma DeliveredStep(p: Pipe, t: seq<Req>, n: nat)
    requires n < |t|
    ensures Delivered(p, t, n) ==
            if !t[n].pkt.isWrite && |t[n].pkt.data| != t[n].pkt.size then Delivered(p.(crashed := true), t, n + 1)
            else Delivered(RecvResp(p, t[n].pkt), t, n + 1)
  {
    hide RecvResp;
  }

  lemma StartDisciplined(c: Config, init: Mem)
    ensures Disciplined(c, StartHier(c, init))
  {
  }

  lemma EmptyStart(btbSize: nat, rasSize: nat)
    requires rasSize > 0
    ensures EmptyBtb(PredictorState(seq(btbSize, _ => BtbEntry(0, 0, false)), seq(rasSize, _ => 0), 0, 0))
  {
  }

  class Simulator {
    const pipe: PipeState
    const cache: Cache
    const memory: BaseMemory
    var fetches: seq<Packet>

    ghost function Core(): set<object> {
      {pipe, pipe.bp, pipe.bp.btb, pipe.bp.ras, pipe.regs}
    }

    ghost function Memories(): set<object> {
      {cache, memory, cache.mshr} + (set b: object | b in cache.blocks) + (set r: object | r in memory.regions)
    }

    ghost predicate Valid()
      reads this, Core(), Memories()
    {
      && cache.next == memory && Core() !! Memories() && this !in Core() && this !in Memories()
      && pipe.Valid() && cache.Valid()
      && Disciplined(cache.c, cache.Snapshot())
    }

    ghost function Snapshot(): SimState
      requires Valid()
      reads this, Core(), Memories()
    {
      SimState(pipe.Snapshot(), cache.Snapshot(), fetches)
    }

    constructor (m: Machine, c: Config, btbSize: nat, rasSize: nat)
      requires rasSize > 0
      ensures Valid() && fresh(Core()) && fresh(Memories()) && pipe.m == m && cache.c == c
      ensures EmptyBtb(pipe.bp.Value()) && (forall a :: Get(memory.Store(), a) == 0)
      ensures Snapshot() == StartFull(c, pipe.bp.Value(), memory.Store())
    {
      hide DynamicBranchPredictor.Value, BaseMemory.Store, StartHier, Cache.Snapshot, PipeState.Snapshot, Cache.Valid,
           PipeState.Valid, Disciplined, Start, Valid, Snapshot, StartFull;
      var bp := new DynamicBranchPredictor(btbSize, rasSize);
      EmptyStart(btbSize, rasSize);
      var memory := new BaseMemory(c.memDelay);
      var cache := new Cache(c, memory);
      pipe := new PipeState(m, bp);
      this.memory, this.cache, fetches := memory, cache, [];
      new;
      Assembled(pipe.bp.Value(), memory.Store());
    }

    lemma Assembled(bp: Predictor, init: Mem)
      requires cache.next == memory && Core() !! Memories() && this !in Core() && this !in Memories()
      requires pipe.Valid() && cache.Valid() && fetches == []
      requires pipe.Snapshot() == Start(bp) && cache.Snapshot() == StartHier(cache.c, init)
      ensures Valid() && Snapshot() == StartFull(cache.c, bp, init)
    {
      StartDisciplined(cache.c, init);
      hide DynamicBranchPredictor.Value, BaseMemory.Store, StartHier, Cache.Snapshot, PipeState.Snapshot, Cache.Valid,
           PipeState.Valid, Disciplined, Start, Core, Memories;
    }

    /** Hands replies to the core. */
    method Deliver(replies: seq<Req>)
      requires pipe.Valid() && |replies| <= |cache.trace| && cache.trace[|cache.trace| - |replies|..] == replies
      modifies pipe
      ensures pipe.Valid() && pipe.Snapshot() == Delivered(old(pipe.Snapshot()), cache.trace, |cache.trace| - |replies|)
    {
      hide DynamicBranchPredictor.Value, PipeSpec.RecvResp;
      ghost var n := |cache.trace| - |replies|;
      for i := 0 to |replies|
        invariant pipe.Valid()
        invariant Delivered(pipe.Snapshot(), cache.trace, n + i) == Delivered(old(pipe.Snapshot()), cache.trace, n)
      {
        assert cache.trace[n + i] == replies[i];
        DeliveredStep(pipe.Snapshot(), cache.trace, n + i);
        if !replies[i].pkt.isWrite && |replies[i].pkt.data| != replies[i].pkt.size {
          pipe.crashed := true;
        } else {
          pipe.RecvResp(replies[i].pkt);
        }
      }
    }

    /** Main memory's turn. */
    method TickMemory(rand: nat -> nat)
      requires Valid()
      modifies Core(), Memories()
      ensures Valid() && Snapshot() == RunFull(pipe.m, cache.c, old(Snapshot()),
              MemoryEvents(cache.c, old(cache.Snapshot()), rand, 0))
    {
      hide DynamicBranchPredictor.Value, BaseMemory.Store, Cache.Snapshot, PipeState.Snapshot, Cache.Layout, Shaped,
           BaseMemory.Servable, PipeState.Valid, Disciplined, RunFull, MemoryEvents, Delivered, MemTick;
      ghost var f := Snapshot();
      MemoryIsRun(pipe.m, cache.c, f, rand, 0);
      MemTickGrows(cache.c, f.hier, rand, 0);
      MemTickFrame(cache.c, f.hier, rand, 0);
      cache.SnapshotHas();
      var replies := memory.Tick(cache, rand);
      cache.SnapshotHas();
      Deliver(replies);
      SameDiscipline(cache.c, f.hier, cache.Snapshot());
    }

    /** The packets that a tick of the cache services. */
    method CacheReplies() returns (replies: seq<Req>)
      requires Valid()
      modifies Memories()
      ensures Valid()
      ensures cache.Snapshot() == NextHier(cache.c, old(cache.Snapshot()), AsWritten, CacheTicks)
      ensures |replies| == |cache.trace| - |old(cache.trace)| && cache.trace[|old(cache.trace)|..] == replies
    {
      hide DynamicBranchPredictor.Value, BaseMemory.Store, Cache.Snapshot, PipeState.Snapshot, Cache.Layout, Shaped,
           BaseMemory.Servable, PipeState.Valid, Disciplined, CacheTick;
      cache.SnapshotHas();
      ghost var h := cache.Snapshot();
      replies := [];
      if !cache.crashed {
        replies := cache.Tick();
        TickKeepsDiscipline(cache.c, h);
      }
      cache.SnapshotHas();
    }

    /** The cache's turn. */
    method TickCache()
      requires Valid()
      modifies Core(), Memories()
      ensures Valid() && Snapshot() == NextFull(pipe.m, cache.c, old(Snapshot()), MemoryMoves(CacheTicks))
    {
      hide DynamicBranchPredictor.Value, BaseMemory.Store, Cache.Snapshot, PipeState.Snapshot, Cache.Layout, Shaped,
           BaseMemory.Servable, PipeState.Valid, Disciplined, Delivered, CacheTick, NextHier;
      cache.SnapshotHas();
      var replies := CacheReplies();
      cache.SnapshotHas();
      Deliver(replies);
    }

    /** The instruction side answers some of its fetches. */
    method AnswerFetches(answers: seq<nat>)
      requires Valid()
      modifies this, Core()
      ensures Valid() && Snapshot() == RunFull(pipe.m, cache.c, old(Snapshot()), AnswerEvents(answers))
    {
      hide DynamicBranchPredictor.Value, BaseMemory.Store, Cache.Snapshot, PipeState.Snapshot, Cache.Layout, Shaped,
           BaseMemory.Servable, PipeState.Valid, Disciplined, RunFull, PipeSpec.RecvResp, Fetched;
      ghost var f := Snapshot();
      RunNone(pipe.m, cache.c, f);
      assert AnswerEvents(answers[..0]) == [];
      for i := 0 to |answers|
        invariant Valid() && Snapshot() == RunFull(pipe.m, cache.c, f, AnswerEvents(answers[..i]))
      {
        ghost var g := Snapshot();
        RunOne(pipe.m, cache.c, f, AnswerEvents(answers[..i]), FetchAnswer(answers[i]));
        assert AnswerEvents(answers[..i + 1]) == AnswerEvents(answers[..i]) + [FetchAnswer(answers[i])];
        AnswerFetch(answers[i]);
      }
      assert answers[..|answers|] == answers;
    }

    method AnswerFetch(j: nat)
      requires Valid()
      modifies this, Core()
      ensures Valid() && Snapshot() == NextFull(pipe.m, cache.c, old(Snapshot()), FetchAnswer(j))
    {
      hide DynamicBranchPredictor.Value, BaseMemory.Store, Cache.Snapshot, PipeState.Snapshot, Cache.Layout, Shaped,
           BaseMemory.Servable, PipeState.Valid, Disciplined, PipeSpec.RecvResp, Fetched;
      if j < |fetches| {
        FetchedSize(pipe.m.text, fetches[j]);
        pipe.RecvResp(Fetched(pipe.m.text, fetches[j]));
        fetches := Without(fetches, j);
      }
    }

    /** The core's turn: its data request goes to the cache. */
    method StepCore(acceptInst: bool)
      requires Valid()
      modifies this, Core(), Memories()
      ensures Valid() && Snapshot() == NextFull(pipe.m, cache.c, old(Snapshot()), CoreCycle(acceptInst))
    {
      hide DynamicBranchPredictor.Value, BaseMemory.Store, Cache.Snapshot, PipeState.Snapshot, Cache.Layout, Shaped,
           BaseMemory.Servable, PipeState.Valid, Disciplined, PipeSpec.Cycle, Submit;
      pipe.SnapshotRun();
      cache.SnapshotHas();
      ghost var h := cache.Snapshot();
      if pipe.run {
        var data, inst := pipe.PipeCycle(|cache.pendingPackets| < CAPACITY, acceptInst);
        if data.Some? {
          var ok := cache.RecvReq(data.value);
          SubmitKeepsDiscipline(cache.c, h, data.value);
        }
        fetches := Added(fetches, inst, acceptInst);
      }
    }

    method PassTime()
      requires Valid()
      modifies Memories()
      ensures Valid() && Snapshot() == NextFull(pipe.m, cache.c, old(Snapshot()), MemoryMoves(TimePasses))
    {
      hide DynamicBranchPredictor.Value, BaseMemory.Store, PipeState.Snapshot, PipeState.Valid, Disciplined, Cache.Sets;
      TimeKeepsDiscipline(cache.c, cache.Snapshot());
      if !cache.crashed {
        cache.now := cache.now + 1;
      }
    }

    /** One clock cycle of the whole machine, in the order of the source. */
    method Cycle(x: Inputs)
      requires Valid()
      modifies this, Core(), Memories()
      ensures Valid() && Snapshot() == RunFull(pipe.m, cache.c, old(Snapshot()),
              CycleEvents(cache.c, old(cache.Snapshot()), x))
    {
      ghost var m, c, f := pipe.m, cache.c, Snapshot();
      hide *;
      ValidShape();
      CycleIsRun(m, c, f, x);
      TickMemory(x.rand);
      TickCache();
      AnswerFetches(x.answers);
      StepCore(x.acceptInst);
      PassTime();
    }

    lemma ValidShape()
      requires Valid()
      ensures Shaped(cache.c, Snapshot().hier) && cache.Layout() && Snapshot().hier == cache.Snapshot()
      ensures Snapshot().pipe.run == pipe.run
    {
    }

    /** Runs for `numCycles` cycles, or until the program exits. */
    method Run(numCycles: nat, inputs: nat -> Inputs) returns (ghost cycles: nat)
      requires Valid()
      modifies this, Core(), Memories()
      ensures Valid() && cycles <= numCycles && (cycles < numCycles ==> !pipe.run)
      ensures Snapshot() == AfterCycles(pipe.m, cache.c, old(Snapshot()), inputs, cycles)
    {
      ghost var m, c, f := pipe.m, cache.c, Snapshot();
      hide *;
      ValidShape();
      NoCycles(m, c, f, inputs);
      cycles := 0;
      for i := 0 to numCycles
        invariant Valid() && Shaped(c, f.hier) && Snapshot() == AfterCycles(m, c, f, inputs, i) && cycles == i
      {
        if !pipe.run {
          break;
        }
        ValidShape();
        OneCycle(m, c, f, inputs, i);
        Cycle(inputs(i));
        cycles := i + 1;
      }
    }
  }

  /** The state after `n` cycles. */
  function AfterCycles(m: Machine, c: Config, f: SimState, inputs: nat -> Inputs, n: nat): (g: SimState)
    requires Shaped(c, f.hier)
    ensures Shaped(c, g.hier)
  {
    if n == 0 then f
    else
      var g := AfterCycles(m, c, f, inputs, n - 1);
      RunFull(m, c, g, CycleEvents(c, g.hier, inputs(n - 1)))
  }

  lemma NoCycles(m: Machine, c: Config, f: SimState, inputs: nat -> Inputs)
    requires Shaped(c, f.hier)
    ensures AfterCycles(m, c, f, inputs, 0) == f
  {
  }

  lemma OneCycle(m: Machine, c: Config, f: SimState, inputs: nat -> Inputs, n: nat)
    requires Shaped(c, f.hier)
    ensures var g := AfterCycles(m, c, f, inputs, n);
            AfterCycles(m, c, f, inputs, n + 1) == RunFull(m, c, g, CycleEvents(c, g.hier, inputs(n)))
  {
    hide RunFull, CycleEvents;
  }

  lemma TimeKeepsDiscipline(c: Config, h: Hier)
    requires Disciplined(c, h)
    ensures Disciplined(c, h.(now := h.now + 1))
  {
  }

  lemma CycleIsRun(m: Machine, c: Config, f: SimState, x: Inputs)
    requires Shaped(c, f.hier)
    ensures var f1 := RunFull(m, c, f, MemoryEvents(c, f.hier, x.rand, 0));
            var f2 := NextFull(m, c, f1, MemoryMoves(CacheTicks));
            var f3 := RunFull(m, c, f2, AnswerEvents(x.answers));
            var f4 := NextFull(m, c, f3, CoreCycle(x.acceptInst));
            RunFull(m, c, f, CycleEvents(c, f.hier, x)) == NextFull(m, c, f4, MemoryMoves(TimePasses))
  {
    hide RunFull, NextFull, MemoryEvents, AnswerEvents, Shaped;
    var e1 := MemoryEvents(c, f.hier, x.rand, 0);
    var e2 := e1 + [MemoryMoves(CacheTicks)];
    var e3 := e2 + AnswerEvents(x.answers);
    var e4 := e3 + [CoreCycle(x.acceptInst)];
    RunOne(m, c, f, e1, MemoryMoves(CacheTicks));
    RunAppend(m, c, f, e2, AnswerEvents(x.answers));
    RunOne(m, c, f, e3, CoreCycle(x.acceptInst));
    RunOne(m, c, f, e4, MemoryMoves(TimePasses));
  }

  lemma SameDiscipline(c: Config, h: Hier, r: Hier)
    requires Disciplined(c, h) && r.pending == h.pending && r.now == h.now
    ensures Disciplined(c, r)
  {
  }

  lemma SubmitKeepsDiscipline(c: Config, h: Hier, pkt: Packet)
    requires Disciplined(c, h)
    ensures Disciplined(c, Submit(c, h, pkt).0)
  {
  }
}
