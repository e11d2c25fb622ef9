/** The simulator from its construction to its end. */
module SimulatorRuns {
  import opened Isa
  import opened PredictorSpec
  import opened BranchPredictor
  import opened PipeSpec
  import PipeSystem
  import opened PipeInvariant
  import opened PipeRuns
  import opened PipeProgress
  import opened PipeSchedules
  import opened Geometry
  import opened CacheSpec
  import opened CacheInvariant
  import opened CacheRuns
  import opened MemoryHierarchy
  import opened Simulation
  import opened SimulatorLoop
  import opened MachineProgress

  /** Cycle by cycle the simulator goes through a sequence of events. */
  lemma {:induction false} CyclesAreRun(m: Machine, c: Config, f: SimState, inputs: nat -> Inputs, n: nat)
    returns (es: seq<SimEvent>)
    requires Shaped(c, f.hier)
    ensures AfterCycles(m, c, f, inputs, n) == RunFull(m, c, f, es)
  {
    hide RunFull, CycleEvents;
    if n == 0 {
      RunNone(m, c, f);
      es := [];
    } else {
      es := CyclesAreRun(m, c, f, inputs, n - 1);
      var x := CycleEvents(c, RunFull(m, c, f, es).hier, inputs(n - 1));
      RunAppend(m, c, f, es, x);
      es := es + x;
    }
  }

  /** The first `n` inputs. */
  function First(inputs: nat -> Inputs, n: nat): seq<Inputs> {
    seq(n, i requires 0 <= i < n => inputs(i))
  }

  lemma {:induction false} CyclesAreWatched(m: Machine, c: Config, w: Watched, inputs: nat -> Inputs, n: nat)
    requires Shaped(c, w.f.hier)
    ensures WatchCycles(m, c, w, First(inputs, n)).f == AfterCycles(m, c, w.f, inputs, n)
  {
    hide RunFull, CycleEvents, AfterCycle, BeforeCore;
    if n > 0 {
      assert First(inputs, n)[..n - 1] == First(inputs, n - 1);
      CyclesAreWatched(m, c, w, inputs, n - 1);
      AfterCycleRuns(m, c, WatchCycles(m, c, w, First(inputs, n - 1)).f, inputs(n - 1));
    }
  }

  /** What the simulator's state says when the program starts from memory `init`:
      no assertion has failed, and the registers are those of the sequential
      machine after exactly the retired instructions. Once the program has exited
      the pc is that of the exit syscall, the cache with main memory is the
      sequential machine's memory, and HI and LO are the sequential machine's
      just after the syscall or one instruction later. */
  ghost predicate ComputesIsa(s: Simulator, init: Mem)
    requires s.Valid()
    reads s, s.Core(), s.Memories()
  {
    s.ValidShape();
    hide Simulator.Valid;
    var m, c := s.pipe.m, s.cache.c;
    var r := Ref(m, StartArch(init));
    var n := s.pipe.retired;
    && !s.pipe.crashed && !s.cache.crashed
    && s.pipe.regs[..] == r.At(n).regs
    && (!s.pipe.run ==>
          && n > 0 && Exits(m.text, r.At(n - 1)) && NoExitYet(r, n - 1)
          && s.pipe.pc == r.At(n - 1).pc
          && Coherent(c, s.cache.Snapshot(), r.At(n).mem)
          && HiLoAfterExit(m, r.At(n), s.pipe.Snapshot()))
  }

  /** Every instruction executed so far is supported and accesses memory in one
      block of a region. */
  ghost predicate ProgramOk(s: Simulator, init: Mem)
    requires s.Valid()
    reads s, s.Core(), s.Memories()
  {
    ValidConfig(s.cache.c) && GoodAndPlaced(Ref(s.pipe.m, StartArch(init)), s.cache.c, ExecIndex(s.pipe.Snapshot()))
  }

  lemma SimulatorShows(s: Simulator, bp: Predictor, init: Mem, inputs: nat -> Inputs, cycles: nat)
    requires s.Valid() && EmptyBtb(bp)
    requires s.Snapshot() == AfterCycles(s.pipe.m, s.cache.c, StartFull(s.cache.c, bp, init), inputs, cycles)
    ensures ProgramOk(s, init) ==> ComputesIsa(s, init)
  {
    hide AfterCycles, RunFull, StartFull, GoodAndPlaced, ValidConfig, EmptyBtb, Exits, Isa.Run, HiLoAfterExit, Coherent,
         NoExitYet, DynamicBranchPredictor.Value, BaseMemory.Store, Cache.Sets, Disciplined, ExecIndex;
    if ProgramOk(s, init) {
      var es := CyclesAreRun(s.pipe.m, s.cache.c, StartFull(s.cache.c, bp, init), inputs, cycles);
      SimulatorComputesIsa(s.pipe.m, s.cache.c, bp, init, es);
    }
  }

  lemma SimulatorEnds(s: Simulator, bp: Predictor, init: Mem, inputs: nat -> Inputs, numCycles: nat, cycles: nat,
                      n: nat, limit: nat)
    requires s.Valid() && EmptyBtb(bp)
    requires s.Snapshot() == AfterCycles(s.pipe.m, s.cache.c, StartFull(s.cache.c, bp, init), inputs, cycles)
    requires cycles <= numCycles && (cycles < numCycles ==> !s.pipe.run)
    requires ExitsInTime(s.pipe.m, s.cache.c, bp, init, numCycles, inputs, n, limit)
    ensures !s.pipe.run && ProgramOk(s, init)
  {
    s.ValidShape();
    hide *;
    RunEnds(s.pipe.m, s.cache.c, bp, init, inputs, numCycles, cycles, n, limit);
    ProgramIsOk(s, init);
  }

  lemma ProgramIsOk(s: Simulator, init: Mem)
    requires s.Valid() && ValidConfig(s.cache.c)
    requires GoodAndPlaced(Ref(s.pipe.m, StartArch(init)), s.cache.c, ExecIndex(s.Snapshot().pipe))
    ensures ProgramOk(s, init)
  {
    hide GoodAndPlaced, ValidConfig, ExecIndex, DynamicBranchPredictor.Value, BaseMemory.Store, Cache.Sets, Disciplined;
  }

  lemma RunEnds(m: Machine, c: Config, bp: Predictor, init: Mem, inputs: nat -> Inputs, numCycles: nat, cycles: nat,
                      n: nat, limit: nat)
    requires EmptyBtb(bp) && ExitsInTime(m, c, bp, init, numCycles, inputs, n, limit)
    ensures var f := AfterCycles(m, c, StartFull(c, bp, init), inputs, cycles);
            ValidConfig(c) && (cycles == numCycles ==> !f.pipe.run)
                && GoodAndPlaced(Ref(m, StartArch(init)), c, ExecIndex(f.pipe))
  {
    hide AfterCycles, StartFull, WatchCycles, FetchesPrompt, GoodAndPlaced, ExitAt, ValidConfig, EmptyBtb, First,
         ExecIndex;
    var w := Watched(StartFull(c, bp, init), 0);
    StartIsOk(m, c, bp, init);
    hide MachineOk;
    CyclesAreWatched(m, c, w, inputs, cycles);
    var q := MachineRun(Ref(m, StartArch(init)), c, w, PipeSystem.StartSys(bp, init), First(inputs, cycles), n, init);
    if cycles == numCycles {
      FirstHas(inputs, numCycles);
      MachineFinishes(m, c, bp, init, First(inputs, numCycles), n, limit);
    }
  }

  lemma FirstHas(inputs: nat -> Inputs, n: nat)
    ensures |First(inputs, n)| == n
  {
  }

  /** The program exits after `n` good instructions, and in the first `numCycles`
      cycles no fetch waits for more than `limit` cycles, which is as long as the
      data side takes at most. */
  ghost predicate ExitsInTime(m: Machine, c: Config, bp: Predictor, init: Mem, numCycles: nat, inputs: nat -> Inputs,
                              n: nat, limit: nat) {
    && ValidConfig(c) && ExitAt(Ref(m, StartArch(init)), n) && GoodAndPlaced(Ref(m, StartArch(init)), c, n)
    && Delay(c) <= limit && numCycles >= n * Bound(limit)
    && FetchesPrompt(m, c, limit, Watched(StartFull(c, bp, init), 0), First(inputs, numCycles))
  }

  /** Builds the machine and runs it. For every program, cache geometry,
      predictor size and outside behaviour, as long as the instructions executed
      are supported and access memory inside the regions, the simulator computes
      what the instruction set does; and it has finished when it has been given
      11 + 4 * limit cycles for each instruction of the program. */
  method Simulate(m: Machine, c: Config, btbSize: nat, rasSize: nat, numCycles: nat, inputs: nat -> Inputs)
    returns (s: Simulator, ghost init: Mem, ghost bp: Predictor)
    requires rasSize > 0
    ensures s.Valid() && s.pipe.m == m && s.cache.c == c && EmptyBtb(bp) && forall a :: Get(init, a) == 0
    ensures ProgramOk(s, init) ==> ComputesIsa(s, init)
    ensures forall n: nat, limit: nat :: ExitsInTime(m, c, bp, init, numCycles, inputs, n, limit) ==>
            !s.pipe.run && ComputesIsa(s, init)
  {
    s := new Simulator(m, c, btbSize, rasSize);
    init, bp := s.memory.Store(), s.pipe.bp.Value();
    hide *;
    s.ValidShape();
    ghost var cycles := s.Run(numCycles, inputs);
    SimulatorShows(s, bp, init, inputs, cycles);
    forall n: nat, limit: nat | ExitsInTime(m, c, bp, init, numCycles, inputs, n, limit)
      ensures !s.pipe.run && ComputesIsa(s, init)
    {
      SimulatorEnds(s, bp, init, inputs, numCycles, cycles, n, limit);
    }
  }
}
