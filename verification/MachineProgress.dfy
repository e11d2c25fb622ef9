/** The whole machine does not only compute the right thing, it gets there: the
    data cache over main memory answers within a time fixed by its two delays,
    so with instruction memory as the only part left open a program that exits
    is run to its end, within a number of cycles linear in its length. */
module MachineProgress {
  import opened Isa
  import opened Packets
  import opened PredictorSpec
  import opened PipeSpec
  import opened IsaAgreement
  import opened PipeSystem
  import opened PipeInvariant
  import opened PipeStages
  import opened PipeCycle
  import opened PipeRuns
  import opened PipeProgress
  import opened PipeSchedules
  import opened Geometry
  import opened CacheSpec
  import opened CacheInvariant
  import CacheFrames
  import opened CacheRuns
  import opened CacheL1D
  import opened CacheDeadlines
  import opened MemoryHierarchy
  import opened Simulation
  import opened SimulatorLoop

  /** The longest that an accepted data request can wait for its answer. */
  function Delay(c: Config): nat {
    c.delay + c.memDelay
  }

  // ---------------------------------------------------------------- one cycle

  /** After main memory and the cache have had their turn. */
  function AfterMemories(m: Machine, c: Config, f: SimState, x: Inputs): (g: SimState)
    requires Shaped(c, f.hier)
    ensures Shaped(c, g.hier)
  {
    NextFull(m, c, RunFull(m, c, f, MemoryEvents(c, f.hier, x.rand, 0)), MemoryMoves(CacheTicks))
  }

  function BeforeCore(m: Machine, c: Config, f: SimState, x: Inputs): (g: SimState)
    requires Shaped(c, f.hier)
    ensures Shaped(c, g.hier)
  {
    RunFull(m, c, AfterMemories(m, c, f, x), AnswerEvents(x.answers))
  }

  /** The state after one cycle of the simulator. */
  function AfterCycle(m: Machine, c: Config, f: SimState, x: Inputs): (g: SimState)
    requires Shaped(c, f.hier)
    ensures Shaped(c, g.hier)
    ensures g == RunFull(m, c, f, CycleEvents(c, f.hier, x))
  {
    CycleIsRun(m, c, f, x);
    NextFull(m, c, NextFull(m, c, BeforeCore(m, c, f, x), CoreCycle(x.acceptInst)), MemoryMoves(TimePasses))
  }

  // ---------------------------------------------------------- the memory side

  /** Between two cycles the outstanding request is due in the cycle before, or
      later, but not later than the two delays allow. */
  predicate Timely(c: Config, h: Hier) {
    && QueueTimes(c, h)
    && (Busy(h) ==> h.now <= Due(c, h) + 1 && Due(c, h) < h.now + Delay(c))
    && (h.pending != [] ==> h.pending[0].ready >= h.now)
  }

  lemma OnTimeTwice(c: Config, h: Hier, g: Hier, r: Hier)
    requires OnTime(c, h, g) && OnTime(c, g, r)
    ensures OnTime(c, h, r)
  {
    hide Busy, Due;
  }

  /** The turn of the two memories on values. */
  function Memories(c: Config, h: Hier, x: Inputs): (r: Hier)
    requires Shaped(c, h)
    ensures Shaped(c, r)
  {
    CacheTick(c, MemTick(c, h, x.rand, 0))
  }

  lemma MemoriesTimes(c: Config, h: Hier, x: Inputs, init: Mem)
    requires HierOk(c, h, init) && SingleOk(h) && Shaped(c, h) && Timely(c, h)
    ensures var r := Memories(c, h, x);
            && HierOk(c, r, init) && SingleOk(r) && QueueTimes(c, r) && OnTime(c, h, r)
            && (Busy(r) ==> Due(c, r) >= r.now) && (r.pending != [] ==> r.pending[0].ready > r.now)
  {
    hide HierOk, SingleOk, QueueTimes, MemTick, CacheTick, Outstanding, Due;
    MemTickTimes(c, h, x.rand, 0, init);
    var g := MemTick(c, h, x.rand, 0);
    var r := CacheTick(c, g);
    CacheTickTimes(c, g, init);
    OnTimeTwice(c, h, g, r);
    if Busy(r) { DueLater(c, g, r, init); }
  }

  lemma DueLater(c: Config, g: Hier, r: Hier, init: Mem)
    requires HierOk(c, g, init) && SingleOk(g) && Shaped(c, g) && QueueTimes(c, g)
             && (g.queue == [] || g.queue[0].ready > g.now)
    requires OnTime(c, g, r) && SingleOk(r) && Busy(r) && (r.pending != [] ==> r.pending[0].ready > r.now)
    requires r.mshr[0].valid && !g.mshr[0].valid ==> Due(c, r) >= r.now
    ensures Due(c, r) >= r.now
  {
    hide HierOk, Waiting;
    if r.mshr[0].valid && g.mshr[0].valid {
      MissIsQueued(c, g, init);
      assert g.queue[|g.queue| - 1].ready > g.now;
      assert Busy(g);
    }
  }

  lemma HierAfterMemories(m: Machine, c: Config, f: SimState, x: Inputs, init: Mem)
    requires HierOk(c, f.hier, init) && SingleOk(f.hier) && Shaped(c, f.hier) && Timely(c, f.hier)
    ensures AfterMemories(m, c, f, x).hier == Memories(c, f.hier, x)
  {
    hide HierOk, SingleOk, QueueTimes, MemTick, CacheTick, RunFull, MemoryEvents, Delivered, OnTime;
    MemoryIsRun(m, c, f, x.rand, 0);
    MemTickTimes(c, f.hier, x.rand, 0, init);
    NotCrashed(c, MemTick(c, f.hier, x.rand, 0), init);
  }

  /** What the machine does stands for a round of the pipeline alone. */
  function Replies(served: bool, answers: seq<nat>): seq<Reply> {
    (if served then [DataReply(0)] else []) + FetchReplies(answers)
  }

  function FetchReplies(answers: seq<nat>): seq<Reply> {
    seq(|answers|, i requires 0 <= i < |answers| => FetchReply(answers[i]))
  }

  function MaybeServed(s: Sys, served: bool): Sys {
    if served then AfterData(s, 0) else s
  }

  lemma {:induction false} RepliedAppend(m: Machine, s: Sys, p: seq<Reply>, q: seq<Reply>)
    ensures Replied(m, s, p + q) == Replied(m, Replied(m, s, p), q)
    decreases |q|
  {
    hide Next;
    if q == [] {
      assert p + q == p;
    } else {
      var n := |q| - 1;
      assert (p + q)[..|p| + n] == p + q[..n];
      RepliedAppend(m, s, p, q[..n]);
    }
  }

  lemma RepliesAre(m: Machine, s: Sys, served: bool, answers: seq<nat>)
    ensures Replied(m, s, Replies(served, answers)) == Replied(m, MaybeServed(s, served), FetchReplies(answers))
  {
    hide AfterData;
    if served {
      RepliedAppend(m, s, [DataReply(0)], FetchReplies(answers));
      assert [DataReply(0)][..0] == [];
      assert Replied(m, s, [DataReply(0)]) == AfterData(s, 0);
    } else {
      assert [] + FetchReplies(answers) == FetchReplies(answers);
    }
  }

  lemma ServedKeeps(r: Ref, s: Sys, served: bool)
    requires Inv(r, s)
    ensures Inv(r, MaybeServed(s, served)) && (served ==> MaybeServed(s, served).dataReqs == [])
  {
    hide Inv, AfterData;
    if served {
      if s.dataReqs != [] { DataReplyKeeps(r, s, 0); } else { NoSuchRequest(s, 0); }
    }
  }

  lemma ServedTwice(r: Ref, s: Sys)
    requires Inv(r, s)
    ensures AfterData(AfterData(s, 0), 0) == AfterData(s, 0)
  {
    hide Inv, AfterData;
    ServedKeeps(r, s, true);
    NoSuchRequest(AfterData(s, 0), 0);
  }

  lemma {:induction false} MemorySim(r: Ref, c: Config, f: SimState, s: Sys, rand: nat -> nat, n: nat, init: Mem)
    requires Inv(r, s) && Sim(c, f, s, init)
    ensures var g := RunFull(r.m, c, f, MemoryEvents(c, f.hier, rand, n));
            |g.hier.trace| >= |f.hier.trace| && Sim(c, g, MaybeServed(s, |g.hier.trace| != |f.hier.trace|), init)
    decreases Work(f.hier.queue)
  {
    var h := f.hier;
    SimShaped(c, f, s, init);
    TickSteps(c, h, rand, n);
    hide Inv, Sim, NextFull, RunFull, Work, AfterData, MemServe, MemTick, MemoryEvents, FrontReady, Shaped, Busy,
         SingleOk, HierOk;
    if !FrontReady(h) {
      RunNone(r.m, c, f);
    } else {
      var e := MemoryMoves(MemoryServes(rand(n)));
      ServiceGoesOn(c, h, rand(n));
      var g := NextFull(r.m, c, f, e);
      ServesHier(r.m, c, f, rand(n));
      ServeSim(r, c, f, s, rand(n), init);
      MemorySim(r, c, g, MaybeServed(s, |g.hier.trace| != |h.trace|), rand, n + 1, init);
      RunSingle(r.m, c, f, e);
      RunAppend(r.m, c, f, [e], MemoryEvents(c, g.hier, rand, n + 1));
      ServedTwice(r, s);
    }
  }

  lemma ServeSim(r: Ref, c: Config, f: SimState, s: Sys, choice: nat, init: Mem)
    requires Inv(r, s) && Sim(c, f, s, init) && Shaped(c, f.hier)
    ensures var g := NextFull(r.m, c, f, MemoryMoves(MemoryServes(choice)));
            var s1 := MaybeServed(s, |g.hier.trace| != |f.hier.trace|);
            Inv(r, s1) && Sim(c, g, s1, init)
  {
    hide Inv, Sim, NextFull, AfterData;
    var g := NextFull(r.m, c, f, MemoryMoves(MemoryServes(choice)));
    MoveSimulates(r, c, f, s, MemoryServes(choice), init);
    ServedKeeps(r, s, |g.hier.trace| != |f.hier.trace|);
  }

  lemma SimShaped(c: Config, f: SimState, s: Sys, init: Mem)
    requires Sim(c, f, s, init)
    ensures Shaped(c, f.hier) && f.pipe == s.pipe && f.hier.mshr != [] && SingleOk(f.hier) && HierOk(c, f.hier, init)
    ensures Busy(f.hier) <==> s.dataReqs != []
  {
    hide HierOk, SingleOk, Outstanding;
  }

  lemma ServesHier(m: Machine, c: Config, f: SimState, choice: nat)
    requires Shaped(c, f.hier) && !f.hier.crashed && f.hier.queue != [] && f.hier.queue[0].ready <= f.hier.now
    ensures var g := NextFull(m, c, f, MemoryMoves(MemoryServes(choice)));
            g.hier == MemServe(c, f.hier, AsWritten, choice) && |g.hier.trace| >= |f.hier.trace|
  {
    hide MemServe, Delivered;
    CacheFrames.ServeFrame(c, f.hier, AsWritten, choice);
  }

  /** Whether the memories served the request in this cycle. */
  predicate Serves(m: Machine, c: Config, f: SimState, x: Inputs)
    requires Shaped(c, f.hier)
  {
    |AfterMemories(m, c, f, x).hier.trace| != |f.hier.trace|
  }

  lemma MemoriesSim(r: Ref, c: Config, f: SimState, s: Sys, x: Inputs, init: Mem)
    requires Inv(r, s) && Sim(c, f, s, init) && Shaped(c, f.hier)
    ensures var s1 := MaybeServed(s, Serves(r.m, c, f, x));
            Inv(r, s1) && Sim(c, AfterMemories(r.m, c, f, x), s1, init)
  {
    hide Inv, Sim, NextFull, RunFull, AfterData, MemoryEvents;
    var g := RunFull(r.m, c, f, MemoryEvents(c, f.hier, x.rand, 0));
    var grew := |g.hier.trace| != |f.hier.trace|;
    MemorySim(r, c, f, s, x.rand, 0, init);
    ServedKeeps(r, s, grew);
    ServedKeeps(r, s, true);
    ServedTwice(r, s);
    MoveSimulates(r, c, g, MaybeServed(s, grew), CacheTicks, init);
    TickGrows(r.m, c, g);
  }

  lemma TickGrows(m: Machine, c: Config, g: SimState)
    requires Shaped(c, g.hier)
    ensures |NextFull(m, c, g, MemoryMoves(CacheTicks)).hier.trace| >= |g.hier.trace|
  {
    hide Delivered;
    if !g.hier.crashed { CacheTickGrows(c, g.hier); }
    hide CacheTick;
  }

  lemma CacheTickGrows(c: Config, h: Hier)
    requires Shaped(c, h)
    ensures |CacheTick(c, h).trace| >= |h.trace|
  {
    ProcessAllGrows(c, h, h.pending[..ReadyPrefix(h.pending, h.now)]);
    hide ProcessAll;
  }

  lemma {:induction false} ProcessAllGrows(c: Config, h: Hier, todo: seq<Req>)
    requires Shaped(c, h)
    ensures |ProcessAll(c, h, todo).0.trace| >= |h.trace|
    decreases |todo|
  {
    hide ProcessReady;
    if todo != [] {
      var n := |todo| - 1;
      ProcessAllGrows(c, h, todo[..n]);
      CacheFrames.ReadyFrame(c, ProcessAll(c, h, todo[..n]).0, todo[n]);
    }
  }

  lemma {:induction false} AnswersSim(r: Ref, c: Config, f: SimState, s: Sys, answers: seq<nat>, init: Mem)
    requires Inv(r, s) && Sim(c, f, s, init) && Shaped(c, f.hier)
    ensures var t := Replied(r.m, s, FetchReplies(answers));
            && Inv(r, t) && Sim(c, RunFull(r.m, c, f, AnswerEvents(answers)), t, init)
            && RunFull(r.m, c, f, AnswerEvents(answers)).hier == f.hier
    decreases |answers|
  {
    hide Inv, Sim, NextFull, AfterFetch;
    if answers == [] {
      RunNone(r.m, c, f);
      assert AnswerEvents(answers) == [];
    } else {
      var n := |answers| - 1;
      AnswersSim(r, c, f, s, answers[..n], init);
      assert AnswerEvents(answers) == AnswerEvents(answers[..n]) + [FetchAnswer(answers[n])];
      assert FetchReplies(answers)[..n] == FetchReplies(answers[..n]);
      var g := RunFull(r.m, c, f, AnswerEvents(answers[..n]));
      var t := Replied(r.m, s, FetchReplies(answers[..n]));
      RunOne(r.m, c, f, AnswerEvents(answers[..n]), FetchAnswer(answers[n]));
      FetchSimulates(r, c, g, t, answers[n], init);
      FetchEventKeeps(r, t, answers[n]);
      AnswerHier(r.m, c, g, answers[n]);
    }
  }

  lemma AnswerHier(m: Machine, c: Config, f: SimState, j: nat)
    requires Shaped(c, f.hier)
    ensures NextFull(m, c, f, FetchAnswer(j)).hier == f.hier
  {
    hide RecvResp;
  }

  /** The state of the pipeline alone when the core runs its cycle. */
  function ReadySys(m: Machine, c: Config, f: SimState, s: Sys, x: Inputs): Sys
    requires Shaped(c, f.hier)
  {
    Replied(m, s, Replies(Serves(m, c, f, x), x.answers))
  }

  lemma BeforeCoreSim(r: Ref, c: Config, f: SimState, s: Sys, x: Inputs, init: Mem)
    requires Inv(r, s) && Sim(c, f, s, init) && Shaped(c, f.hier)
    ensures var t := ReadySys(r.m, c, f, s, x);
            && Inv(r, t) && Sim(c, BeforeCore(r.m, c, f, x), t, init)
            && BeforeCore(r.m, c, f, x).hier == AfterMemories(r.m, c, f, x).hier
  {
    hide Inv, Sim, AfterMemories, RunFull, Replied, Replies, MaybeServed;
    MemoriesSim(r, c, f, s, x, init);
    RepliesAre(r.m, s, Serves(r.m, c, f, x), x.answers);
    AnswersSim(r, c, AfterMemories(r.m, c, f, x), MaybeServed(s, Serves(r.m, c, f, x)), x.answers, init);
  }

  /** A cycle of the machine is a round of the pipeline. */
  lemma CycleSim(r: Ref, c: Config, f: SimState, s: Sys, x: Inputs, init: Mem)
    requires Inv(r, s) && Sim(c, f, s, init) && Shaped(c, f.hier)
    requires GoodAndPlaced(r, c, ExecIndex(AfterCycle(r.m, c, f, x).pipe))
    ensures var t := AfterClock(r.m, ReadySys(r.m, c, f, s, x), true, x.acceptInst);
            Inv(r, t) && Sim(c, AfterCycle(r.m, c, f, x), t, init)
  {
    hide Inv, Sim, BeforeCore, AfterClock, GoodAndPlaced, ExecIndex, ReadySys;
    BeforeCoreSim(r, c, f, s, x, init);
    var g := BeforeCore(r.m, c, f, x);
    var t := ReadySys(r.m, c, f, s, x);
    CoreThenTime(r, c, g, t, x.acceptInst, init);
  }

  lemma CoreThenTime(r: Ref, c: Config, g: SimState, t: Sys, acceptInst: bool, init: Mem)
    requires Inv(r, t) && Sim(c, g, t, init) && Shaped(c, g.hier)
    requires var h := NextFull(r.m, c, NextFull(r.m, c, g, CoreCycle(acceptInst)), MemoryMoves(TimePasses));
             GoodAndPlaced(r, c, ExecIndex(h.pipe))
    ensures var q := AfterClock(r.m, t, true, acceptInst);
            Inv(r, q)
            && Sim(c, NextFull(r.m, c, NextFull(r.m, c, g, CoreCycle(acceptInst)), MemoryMoves(TimePasses)), q, init)
  {
    hide Inv, Sim, AfterClock, GoodAndPlaced, ExecIndex, NextFull, Good;
    var h := NextFull(r.m, c, g, CoreCycle(acceptInst));
    var q := AfterClock(r.m, t, true, acceptInst);
    TimeFrame(r.m, c, h);
    CycleSimulates(r, c, g, t, acceptInst, init);
    SimShaped(c, h, q, init);
    PlacedIsGood(r, c, ExecIndex(q.pipe));
    ClockKeeps(r, t, true, acceptInst);
    MoveSimulates(r, c, h, q, TimePasses, init);
  }

  lemma TimeFrame(m: Machine, c: Config, h: SimState)
    requires Shaped(c, h.hier)
    ensures var g := NextFull(m, c, h, MemoryMoves(TimePasses));
            g.pipe == h.pipe && g.hier.trace == h.hier.trace
                && (!h.hier.crashed ==> g.hier == h.hier.(now := h.hier.now + 1))
  {
    hide RecvResp;
  }

  // ----------------------------------------------------------- data requests

  predicate NotRefused(p: Pipe) {
    p.memOp.Some? ==> !p.memOp.value.waitOnPktIssue
  }

  /** A request is pending exactly while one is with the memories. */
  lemma PhaseIs(r: Ref, s: Sys)
    requires Inv(r, s) && s.pipe.run && s.pipe.wbOp.None? && NotRefused(s.pipe)
    ensures DataPhase(s.pipe) == if s.dataReqs == [] then Idle else Pending
  {
    hide Run, Completed, Step, AccessOp, GoodAccess, AccessOf, FrontOk, PathOk, WbOk, RefLog, AccessLog, NoExitYet,
         IsExitOp;
    NotDraining(s.pipe);
    assert MemOk(r, s.pipe, s.mem, s.dataReqs);
  }

  /** A pending request stays so over a cycle, and no other is made. */
  lemma PendingStays(m: Machine, s: Sys, acceptInst: bool)
    requires s.pipe.run && s.pipe.wbOp.None? && DataPhase(s.pipe) == Pending
    ensures var q := AfterClock(m, s, true, acceptInst);
            DataPhase(q.pipe) == Pending && q.dataReqs == s.dataReqs
  {
    var p := s.pipe;
    BypassFlags(p, p.memOp.value);
    assert var t := MemStage(p, true); t.1.None? && t.0.memOp == Some(Bypassed(p, p.memOp.value));
    CycleOfMem(m, p, true, acceptInst);
    NoOffer(m, p, true, acceptInst);
    hide Cycle, MemStage, Bypassed;
  }

  lemma NoOffer(m: Machine, p: Pipe, acceptData: bool, acceptInst: bool)
    requires p.run && p.wbOp.None?
    ensures Cycle(m, p, acceptData, acceptInst).data == MemStage(p, acceptData).1
  {
    hide MemStage, ExecuteStage, DecodeStage, FetchStage, Recovered;
    MemFrame(p, acceptData);
  }

  /** With a cache that accepts every request none is ever refused. */
  lemma ClockNotRefused(r: Ref, s: Sys, acceptInst: bool)
    requires Inv(r, s) && NotRefused(s.pipe)
    ensures NotRefused(AfterClock(r.m, s, true, acceptInst).pipe)
  {
    hide Cycle, PipeOk, RefLog, AccessLog, NoExitYet, Draining;
    var p := s.pipe;
    if p.run {
      if Draining(p) { WbStops(p); } else { CycleNotRefused(r, p, s.mem, s.dataReqs, acceptInst); }
    }
  }

  lemma CycleNotRefused(r: Ref, p: Pipe, mem: Mem, reqs: seq<Packet>, acceptInst: bool)
    requires p.run && PipeOk(r, p, mem, reqs) && !Draining(p) && NotRefused(p)
    ensures NotRefused(Cycle(r.m, p, true, acceptInst).pipe)
  {
    hide Cycle, PipeOk, MemStage, ExecuteStage, Tail, Draining, Run, Executed, ResolveBranch, FrontOk, WbOk, MemOk,
         PathOk;
    var w := WbStage(p);
    assert w.run && w.memOp == p.memOp by { RunsOn(p); }
    var t := MemStage(w, true).0;
    BeforeExecuteHolds(r, p, mem, reqs, true);
    MemNotRefused(w);
    CycleIsTail(r.m, p, true, acceptInst);
    var x := ExecuteStage(r.m, t);
    assert Tail(x, acceptInst).memOp == x.memOp by { TailMem(x, acceptInst); }
    if t.memOp.Some? || t.executeOp.None? {
      ExecuteWaits(r.m, t);
    } else {
      ExecuteIsStep(r, t);
      AccessKinds(r.m, r.At(ExecIndex(t)));
    }
  }

  lemma RunsOn(p: Pipe)
    requires p.run && !Draining(p)
    ensures WbStage(p).run && WbStage(p).memOp == p.memOp
  {
    hide Retire;
  }

  lemma MemNotRefused(p: Pipe)
    requires NotRefused(p)
    ensures NotRefused(MemStage(p, true).0)
  {
    if p.memOp.Some? { BypassFlags(p, p.memOp.value); }
    hide Bypassed, DataPacket;
  }

  lemma TailMem(p: Pipe, acceptInst: bool)
    ensures Tail(p, acceptInst).memOp == p.memOp
  {
    hide DecodeStage, FetchStage, Recovered;
    DecodeSameBack(p);
    FetchSameBack(DecodeStage(p), acceptInst);
    RecoveredSameBack(FetchStage(DecodeStage(p), acceptInst).0);
  }

  lemma {:induction false} RepliedNotRefused(m: Machine, s: Sys, replies: seq<Reply>)
    requires NotRefused(s.pipe)
    ensures NotRefused(Replied(m, s, replies).pipe) && Replied(m, s, replies).pipe.wbOp == s.pipe.wbOp
  {
    hide Next;
    if replies != [] {
      var n := |replies| - 1;
      RepliedNotRefused(m, s, replies[..n]);
      ReplyNotRefused(m, Replied(m, s, replies[..n]), replies[n]);
    }
  }

  lemma ReplyNotRefused(m: Machine, s: Sys, x: Reply)
    requires NotRefused(s.pipe)
    ensures var q := Next(m, s, EventOf(x)).pipe;
            NotRefused(q) && q.wbOp == s.pipe.wbOp
  {
    hide RecvResp, Served, After, Fetched;
    match x
    case DataReply(i) =>
      if i < |s.dataReqs| {
        ServedSize(s.mem, s.dataReqs[i]);
        ReplyReadies(s.pipe, Served(s.mem, s.dataReqs[i]));
      }
    case FetchReply(j) =>
      if j < |s.fetches| {
        FetchedSize(m.text, s.fetches[j]);
        ReplyReadies(s.pipe, Fetched(m.text, s.fetches[j]));
      }
  }

  // ----------------------------------------------------------------- invariant

  /** What holds of the machine between two cycles, and of the pipeline that it
      stands for. */
  ghost predicate MachineOk(r: Ref, c: Config, f: SimState, s: Sys, init: Mem) {
    Inv(r, s) && Sim(c, f, s, init) && Shaped(c, f.hier) && Timely(c, f.hier) && NotRefused(f.pipe)
  }

  /** How long the outstanding request has been waiting. */
  function Waited(c: Config, h: Hier): nat
    requires Timely(c, h)
  {
    if Busy(h) then h.now + Delay(c) - 1 - Due(c, h) else 0
  }

  lemma StartIsOk(m: Machine, c: Config, bp: Predictor, init: Mem)
    requires ValidConfig(c) && EmptyBtb(bp)
    ensures MachineOk(Ref(m, StartArch(init)), c, StartFull(c, bp, init), StartSys(bp, init), init)
  {
    StartSimulates(m, c, bp, init);
    hide Inv, Sim, ValidConfig;
  }

  /** The memory side after the turn of the memories, and after the core's. */
  predicate OnSchedule(c: Config, h: Hier) {
    && QueueTimes(c, h) && (Busy(h) ==> h.now <= Due(c, h) <= h.now + Delay(c))
    && (h.pending != [] ==> h.pending[0].ready > h.now)
  }

  /** The core's turn, seen from the memory side. */
  lemma CoreTimes(r: Ref, c: Config, g: SimState, t: Sys, acceptInst: bool, init: Mem)
    requires Inv(r, t) && Sim(c, g, t, init) && Shaped(c, g.hier) && OnSchedule(c, g.hier)
    ensures var h := NextFull(r.m, c, g, CoreCycle(acceptInst)).hier;
            && OnSchedule(c, h) && h.now == g.hier.now && !h.crashed
            && (Busy(g.hier) ==> Busy(h) && Due(c, h) == Due(c, g.hier))
            && (Busy(h) && !Busy(g.hier) ==> Due(c, h) == g.hier.now + Delay(c))
  {
    SimShaped(c, g, t, init);
    NotCrashed(c, g.hier, init);
    FewPending(g.hier);
    hide *;
    CoreHier(r.m, c, g, acceptInst);
    var x := Cycle(r.m, t.pipe, true, acceptInst);
    if t.pipe.run && x.data.Some? {
      OfferAlone(r, t, acceptInst);
      SubmitTimes(c, g.hier, x.data.value);
    }
  }

  lemma CoreHier(m: Machine, c: Config, g: SimState, acceptInst: bool)
    requires Shaped(c, g.hier) && |g.hier.pending| < CAPACITY
    ensures var x := Cycle(m, g.pipe, true, acceptInst);
            NextFull(m, c, g, CoreCycle(acceptInst)).hier ==
              if g.pipe.run && x.data.Some? then Submit(c, g.hier, x.data.value).0 else g.hier
  {
    hide Cycle, Submit;
  }

  lemma OfferAlone(r: Ref, t: Sys, acceptInst: bool)
    requires Inv(r, t) && t.pipe.run && Cycle(r.m, t.pipe, true, acceptInst).data.Some?
    ensures t.dataReqs == []
  {
    InvPipe(r, t);
    hide Inv, Cycle, PipeOk, Supported, Exits, AccessOf, Run;
    CycleOffers(r, t.pipe, t.mem, t.dataReqs, true, acceptInst);
  }

  lemma SubmitTimes(c: Config, h: Hier, pkt: Packet)
    requires h.mshr != [] && !Busy(h) && SingleOk(h) && OnSchedule(c, h) && |h.pending| < CAPACITY && !h.crashed
    ensures var r := Submit(c, h, pkt).0;
            OnSchedule(c, r) && r.now == h.now && Busy(r) && Due(c, r) == h.now + Delay(c) && !r.crashed
  {
    hide Waiting;
  }

  lemma TimeTimes(c: Config, h: Hier, r: Hier)
    requires r == h.(now := h.now + 1) && OnSchedule(c, h)
    ensures Timely(c, r) && Busy(r) == Busy(h) && Due(c, r) == Due(c, h)
  {
    hide Waiting;
  }

  /** The memory side over a whole cycle: nothing is ever overdue, and a request
      that goes on waiting waits one cycle more. */
  lemma CycleTimes(r: Ref, c: Config, f: SimState, s: Sys, x: Inputs, init: Mem)
    requires Shaped(c, f.hier) && Inv(r, s) && Sim(c, f, s, init) && Timely(c, f.hier)
    ensures var g := BeforeCore(r.m, c, f, x).hier;
            var h := AfterCycle(r.m, c, f, x).hier;
            && Timely(c, h) && (Busy(g) ==> Busy(f.hier) && Waited(c, h) == Waited(c, f.hier) + 1)
            && (!Busy(g) ==> Waited(c, h) == 0)
  {
    hide *;
    var g := BeforeCore(r.m, c, f, x);
    var k := NextFull(r.m, c, g, CoreCycle(x.acceptInst));
    ScheduleBeforeCore(r, c, f, s, x, init);
    BeforeCoreSim(r, c, f, s, x, init);
    CoreTimes(r, c, g, ReadySys(r.m, c, f, s, x), x.acceptInst, init);
    TimeFrame(r.m, c, k);
    CycleEnds(r.m, c, f, x);
    var h := AfterCycle(r.m, c, f, x).hier;
    TimeTimes(c, k.hier, h);
    WaitGoesOn(c, f.hier, g.hier, k.hier, h);
  }

  lemma ScheduleBeforeCore(r: Ref, c: Config, f: SimState, s: Sys, x: Inputs, init: Mem)
    requires Shaped(c, f.hier) && Inv(r, s) && Sim(c, f, s, init) && Timely(c, f.hier)
    ensures var g := BeforeCore(r.m, c, f, x).hier;
            OnSchedule(c, g) && (Busy(g) ==> Busy(f.hier) && Due(c, g) == Due(c, f.hier)) && g.now == f.hier.now
  {
    hide *;
    SimShaped(c, f, s, init);
    BeforeCoreSim(r, c, f, s, x, init);
    HierAfterMemories(r.m, c, f, x, init);
    MemoriesTimes(c, f.hier, x, init);
    MemoriesSchedule(c, f.hier, BeforeCore(r.m, c, f, x).hier);
  }

  lemma CycleEnds(m: Machine, c: Config, f: SimState, x: Inputs)
    requires Shaped(c, f.hier)
    ensures AfterCycle(m, c, f, x) ==
              NextFull(m, c, NextFull(m, c, BeforeCore(m, c, f, x), CoreCycle(x.acceptInst)), MemoryMoves(TimePasses))
  {
    hide NextFull, BeforeCore;
  }

  lemma WaitGoesOn(c: Config, f: Hier, g: Hier, k: Hier, h: Hier)
    requires Timely(c, f) && Timely(c, h) && g.now == f.now && k.now == g.now && h.now == k.now + 1
    requires Busy(g) ==> Busy(f) && Due(c, g) == Due(c, f) && Busy(k) && Due(c, k) == Due(c, g)
    requires Busy(k) && !Busy(g) ==> Due(c, k) == g.now + Delay(c)
    requires Busy(h) == Busy(k) && Due(c, h) == Due(c, k)
    ensures Busy(g) ==> Waited(c, h) == Waited(c, f) + 1
    ensures !Busy(g) ==> Waited(c, h) == 0
  {
    hide Busy, Due, QueueTimes;
  }

  lemma MemoriesSchedule(c: Config, h: Hier, g: Hier)
    requires Timely(c, h) && QueueTimes(c, g) && OnTime(c, h, g)
    requires (Busy(g) ==> Due(c, g) >= g.now) && (g.pending != [] ==> g.pending[0].ready > g.now)
    ensures OnSchedule(c, g) && (Busy(g) ==> Busy(h) && Due(c, g) == Due(c, h)) && g.now == h.now
  {
    hide Busy, Due, QueueTimes;
  }

  // ------------------------------------------------------------------- cycles

  /** The machine, and how many cycles the fetch of the op in fetch has now been
      refused or left unanswered in a row. */
  datatype Watched = Watched(f: SimState, fetchWait: nat)

  function WatchCycle(m: Machine, c: Config, w: Watched, x: Inputs): (v: Watched)
    requires Shaped(c, w.f.hier)
    ensures Shaped(c, v.f.hier)
  {
    var g := AfterCycle(m, c, w.f, x);
    Watched(g, FetchWait(BeforeCore(m, c, w.f, x).pipe, g.pipe, w.fetchWait))
  }

  function WatchCycles(m: Machine, c: Config, w: Watched, xs: seq<Inputs>): (v: Watched)
    requires Shaped(c, w.f.hier)
    ensures Shaped(c, v.f.hier)
    decreases |xs|
  {
    if xs == [] then w else WatchCycle(m, c, WatchCycles(m, c, w, xs[..|xs| - 1]), xs[|xs| - 1])
  }

  /** No fetch is refused more than `limit` times in a row nor left unanswered
      for more than `limit` cycles. */
  predicate FetchesPrompt(m: Machine, c: Config, limit: nat, w: Watched, xs: seq<Inputs>)
    requires Shaped(c, w.f.hier)
  {
    forall k :: 0 <= k <= |xs| ==> WatchCycles(m, c, w, xs[..k]).fetchWait <= limit
  }

  /** One cycle keeps the invariant. */
  lemma CycleKeepsMachine(r: Ref, c: Config, f: SimState, s: Sys, x: Inputs, init: Mem)
    requires MachineOk(r, c, f, s, init) && GoodAndPlaced(r, c, ExecIndex(AfterCycle(r.m, c, f, x).pipe))
    ensures var q := AfterClock(r.m, ReadySys(r.m, c, f, s, x), true, x.acceptInst);
            MachineOk(r, c, AfterCycle(r.m, c, f, x), q, init)
  {
    SimShaped(c, f, s, init);
    CycleTimes(r, c, f, s, x, init);
    BeforeCoreSim(r, c, f, s, x, init);
    CycleSim(r, c, f, s, x, init);
    hide Inv, Sim, Timely, AfterCycle, AfterClock, BeforeCore, GoodAndPlaced, NotRefused, Replied, Replies;
    RepliedNotRefused(r.m, s, Replies(Serves(r.m, c, f, x), x.answers));
    ClockNotRefused(r, ReadySys(r.m, c, f, s, x), x.acceptInst);
    SimShaped(c, AfterCycle(r.m, c, f, x), AfterClock(r.m, ReadySys(r.m, c, f, s, x), true, x.acceptInst), init);
  }

  /** The waits of the pipeline's requests, as the machine sees them. */
  predicate WaitsAre(c: Config, w: Watched, t: Timed)
    requires Timely(c, w.f.hier)
  {
    t.dataWait == Waited(c, w.f.hier) && t.fetchWait == w.fetchWait
  }

  function RoundOf(m: Machine, c: Config, f: SimState, x: Inputs): Round
    requires Shaped(c, f.hier)
  {
    Round(Replies(Serves(m, c, f, x), x.answers), true, x.acceptInst)
  }

  /** Unless an instruction retires in this cycle, the waits go on as the machine
      sees them. */
  lemma CycleWaits(r: Ref, c: Config, w: Watched, t: Timed, x: Inputs, init: Mem)
    requires MachineOk(r, c, w.f, t.sys, init) && WaitsAre(c, w, t) && t.sys.pipe.run && t.sys.pipe.wbOp.None?
    requires GoodAndPlaced(r, c, ExecIndex(WatchCycle(r.m, c, w, x).f.pipe))
    ensures var v := WatchCycle(r.m, c, w, x);
            var u := AfterRound(r.m, t, RoundOf(r.m, c, w.f, x));
            MachineOk(r, c, v.f, u.sys, init) && WaitsAre(c, v, u)
  {
    var s3 := ReadySys(r.m, c, w.f, t.sys, x);
    var g, h := BeforeCore(r.m, c, w.f, x), AfterCycle(r.m, c, w.f, x);
    assert h == WatchCycle(r.m, c, w, x).f;
    assert Inv(r, t.sys) && Sim(c, w.f, t.sys, init) && Timely(c, w.f.hier) && NotRefused(w.f.pipe)
           && w.f.pipe == t.sys.pipe;
    hide *;
    CycleKeepsMachine(r, c, w.f, t.sys, x, init);
    CycleTimes(r, c, w.f, t.sys, x, init);
    BeforeCoreSim(r, c, w.f, t.sys, x, init);
    SimShaped(c, g, s3, init);
    MachinePipe(r, c, h, AfterClock(r.m, s3, true, x.acceptInst), init);
    ReadyRuns(r, c, w.f, t.sys, x);
    PhaseIs(r, s3);
    if s3.dataReqs != [] { PendingStays(r.m, s3, x.acceptInst); }
    WaitsFollow(r.m, c, w, t, x);
  }

  lemma MachinePipe(r: Ref, c: Config, f: SimState, s: Sys, init: Mem)
    requires MachineOk(r, c, f, s, init)
    ensures f.pipe == s.pipe && Shaped(c, f.hier)
  {
    hide Inv, HierOk, SingleOk, Timely, Outstanding;
  }

  lemma ReadyRuns(r: Ref, c: Config, f: SimState, s: Sys, x: Inputs)
    requires Inv(r, s) && Shaped(c, f.hier) && NotRefused(s.pipe)
    ensures var q := ReadySys(r.m, c, f, s, x).pipe;
            q.run == s.pipe.run && q.wbOp == s.pipe.wbOp && NotRefused(q) && ExecIndex(q) == ExecIndex(s.pipe)
  {
    hide Inv, Replied, NotRefused, Serves, ExecIndex;
    RepliedNotRefused(r.m, s, Replies(Serves(r.m, c, f, x), x.answers));
    RepliedRuns(r, s, Replies(Serves(r.m, c, f, x), x.answers));
  }

  lemma WaitsFollow(m: Machine, c: Config, w: Watched, t: Timed, x: Inputs)
    requires Shaped(c, w.f.hier) && Timely(c, w.f.hier) && WaitsAre(c, w, t)
    requires var s3 := ReadySys(m, c, w.f, t.sys, x);
             var q := AfterClock(m, s3, true, x.acceptInst);
             var g, h := BeforeCore(m, c, w.f, x), AfterCycle(m, c, w.f, x);
             && g.pipe == s3.pipe && h.pipe == q.pipe && Timely(c, h.hier) && Busy(g.hier) == (s3.dataReqs != [])
             && (Busy(g.hier) ==> Waited(c, h.hier) == Waited(c, w.f.hier) + 1)
                && (!Busy(g.hier) ==> Waited(c, h.hier) == 0)
             && DataPhase(s3.pipe) == (if s3.dataReqs == [] then Idle else Pending)
             && (s3.dataReqs != [] ==> DataPhase(q.pipe) == Pending)
    ensures var v := WatchCycle(m, c, w, x);
            var u := AfterRound(m, t, RoundOf(m, c, w.f, x));
            && u.sys == AfterClock(m, ReadySys(m, c, w.f, t.sys, x), true, x.acceptInst) && WaitsAre(c, v, u)
  {
    hide AfterClock, BeforeCore, AfterCycle, Waited, Busy, DataPhase, FetchWait, Replies, Replied, Serves, Timely;
  }

  lemma RepliedRuns(r: Ref, s: Sys, replies: seq<Reply>)
    requires Inv(r, s)
    ensures var q := Replied(r.m, s, replies);
            q.pipe.run == s.pipe.run && q.pipe.retired == s.pipe.retired && ExecIndex(q.pipe) == ExecIndex(s.pipe)
  {
    hide Inv;
    RepliesHelp(r, 0, s, replies, 0, 0);
  }

  // --------------------------------------------------------------- progress

  lemma MachineParts(r: Ref, c: Config, f: SimState, s: Sys, init: Mem)
    requires MachineOk(r, c, f, s, init)
    ensures Inv(r, s) && Shaped(c, f.hier) && Timely(c, f.hier) && Waited(c, f.hier) <= Delay(c) && f.pipe == s.pipe
            && NotRefused(s.pipe)
  {
    hide Inv, HierOk, SingleOk, Outstanding, QueueTimes;
  }

  /** The invariant with the waits as the machine sees them, and how far the
      oldest op still is from retirement. */
  ghost predicate MachineAt(r: Ref, c: Config, w: Watched, t: Timed, init: Mem) {
    MachineOk(r, c, w.f, t.sys, init) && WaitsAre(c, w, t)
  }

  lemma Rewound(r: Ref, c: Config, w: Watched, s: Sys, init: Mem) returns (t: Timed)
    requires MachineOk(r, c, w.f, s, init)
    ensures MachineAt(r, c, w, t, init) && t.sys == s
  {
    MachineParts(r, c, w.f, s, init);
    t := Timed(s, Waited(c, w.f.hier), w.fetchWait);
    hide MachineOk, Waited, Timely;
  }

  lemma AtPrompt(r: Ref, c: Config, w: Watched, t: Timed, limit: nat, init: Mem)
    requires MachineAt(r, c, w, t, init) && Delay(c) <= limit && w.fetchWait <= limit
    ensures Prompt(limit, t) && Inv(r, t.sys) && w.f.pipe == t.sys.pipe
  {
    MachineParts(r, c, w.f, t.sys, init);
    hide MachineOk, Waited, Timely, Inv;
  }

  /** One cycle of a machine that is still running: an instruction retires, or
      the oldest op comes nearer to retirement. */
  lemma CycleProgress(r: Ref, c: Config, w: Watched, t: Timed, x: Inputs, limit: nat, init: Mem) returns (u: Timed)
    requires MachineAt(r, c, w, t, init) && t.sys.pipe.run && Delay(c) <= limit && w.fetchWait <= limit
    requires WatchCycle(r.m, c, w, x).fetchWait <= limit
    requires GoodAndPlaced(r, c, ExecIndex(WatchCycle(r.m, c, w, x).f.pipe))
    ensures MachineAt(r, c, WatchCycle(r.m, c, w, x), u, init) && t.sys.pipe.retired <= u.sys.pipe.retired
    ensures u.sys.pipe.retired > t.sys.pipe.retired ||
            (u.sys.pipe.run &&
             Distance(limit, u.sys.pipe, u.dataWait, u.fetchWait)
               < Distance(limit, t.sys.pipe, t.dataWait, t.fetchWait))
  {
    var v := WatchCycle(r.m, c, w, x);
    assert MachineOk(r, c, w.f, t.sys, init) && WaitsAre(c, w, t) && v.f == AfterCycle(r.m, c, w.f, x);
    hide *;
    MachineParts(r, c, w.f, t.sys, init);
    AtPrompt(r, c, w, t, limit, init);
    if t.sys.pipe.wbOp.Some? {
      var q := AfterClock(r.m, ReadySys(r.m, c, w.f, t.sys, x), true, x.acceptInst);
      CycleKeepsMachine(r, c, w.f, t.sys, x, init);
      ReadyRuns(r, c, w.f, t.sys, x);
      ReadyRetired(r, c, w.f, t.sys, x);
      ClockRetires(r.m, ReadySys(r.m, c, w.f, t.sys, x), x.acceptInst);
      u := Rewound(r, c, v, q, init);
    } else {
      u := AfterRound(r.m, t, RoundOf(r.m, c, w.f, x));
      CycleWaits(r, c, w, t, x, init);
      AtHolds(r, c, v, u, init);
      AtPrompt(r, c, v, u, limit, init);
      PlacedIsGood(r, c, ExecIndex(v.f.pipe));
      RoundAdvances(r, limit, t, RoundOf(r.m, c, w.f, x));
      RoundStops(r, t, RoundOf(r.m, c, w.f, x));
    }
  }

  lemma AtHolds(r: Ref, c: Config, w: Watched, t: Timed, init: Mem)
    requires MachineOk(r, c, w.f, t.sys, init) && Timely(c, w.f.hier) && WaitsAre(c, w, t)
    ensures MachineAt(r, c, w, t, init)
  {
    hide MachineOk, Timely, WaitsAre;
  }

  lemma ReadyRetired(r: Ref, c: Config, f: SimState, s: Sys, x: Inputs)
    requires Inv(r, s) && Shaped(c, f.hier)
    ensures ReadySys(r.m, c, f, s, x).pipe.retired == s.pipe.retired
  {
    hide Inv, Replied, Serves;
    RepliedRuns(r, s, Replies(Serves(r.m, c, f, x), x.answers));
  }

  lemma ClockRetires(m: Machine, s: Sys, acceptInst: bool)
    requires s.pipe.run && s.pipe.wbOp.Some?
    ensures AfterClock(m, s, true, acceptInst).pipe.retired == s.pipe.retired + 1
  {
    CycleOfWb(m, s.pipe, true, acceptInst);
    hide Cycle;
  }

  lemma FetchesPrefix(m: Machine, c: Config, limit: nat, w: Watched, xs: seq<Inputs>)
    requires Shaped(c, w.f.hier) && FetchesPrompt(m, c, limit, w, xs) && xs != []
    ensures FetchesPrompt(m, c, limit, w, xs[..|xs| - 1])
    ensures WatchCycles(m, c, w, xs[..|xs| - 1]).fetchWait <= limit && WatchCycles(m, c, w, xs).fetchWait <= limit
  {
    hide WatchCycles;
    var n := |xs| - 1;
    forall k | 0 <= k <= n ensures WatchCycles(m, c, w, xs[..n][..k]).fetchWait <= limit {
      assert xs[..n][..k] == xs[..k];
    }
    assert xs[..n + 1] == xs;
  }

  lemma CycleMonotoneMachine(m: Machine, c: Config, f: SimState, x: Inputs)
    requires Shaped(c, f.hier)
    ensures ExecIndex(f.pipe) <= ExecIndex(AfterCycle(m, c, f, x).pipe)
  {
    hide *;
    RunMonotone(m, c, f, CycleEvents(c, f.hier, x));
    AfterCycleRuns(m, c, f, x);
  }

  lemma AfterCycleRuns(m: Machine, c: Config, f: SimState, x: Inputs)
    requires Shaped(c, f.hier)
    ensures AfterCycle(m, c, f, x) == RunFull(m, c, f, CycleEvents(c, f.hier, x))
  {
    hide RunFull, CycleEvents;
  }

  lemma {:induction false} RunMonotone(m: Machine, c: Config, f: SimState, es: seq<SimEvent>)
    requires Shaped(c, f.hier)
    ensures ExecIndex(f.pipe) <= ExecIndex(RunFull(m, c, f, es).pipe)
    decreases |es|
  {
    hide NextFull, ExecIndex;
    if es != [] {
      RunMonotone(m, c, f, es[..|es| - 1]);
      FullMonotone(m, c, RunFull(m, c, f, es[..|es| - 1]), es[|es| - 1]);
    }
  }

  lemma PlacedBelow(r: Ref, c: Config, i: nat, j: nat)
    requires GoodAndPlaced(r, c, j) && i <= j
    ensures GoodAndPlaced(r, c, i)
  {
    hide PlacedAt;
  }

  /** The cycles of a running machine, one by one. */
  lemma {:induction false} CyclesProgress(r: Ref, c: Config, w: Watched, t: Timed, xs: seq<Inputs>, limit: nat,
                                           init: Mem)
    returns (u: Timed)
    requires Shaped(c, w.f.hier) && MachineAt(r, c, w, t, init) && t.sys.pipe.run && Delay(c) <= limit
    requires FetchesPrompt(r.m, c, limit, w, xs) && GoodAndPlaced(r, c, ExecIndex(WatchCycles(r.m, c, w, xs).f.pipe))
    ensures var v := WatchCycles(r.m, c, w, xs);
            && MachineAt(r, c, v, u, init) && t.sys.pipe.retired <= u.sys.pipe.retired
            && (u.sys.pipe.retired > t.sys.pipe.retired ||
                (u.sys.pipe.run &&
                 Distance(limit, u.sys.pipe, u.dataWait, u.fetchWait) + |xs|
                   <= Distance(limit, t.sys.pipe, t.dataWait, t.fetchWait)))
    decreases |xs|
  {
    hide MachineAt, GoodAndPlaced, WatchCycle, FetchesPrompt, Distance, ExecIndex, Delay;
    if xs == [] {
      u := t;
    } else {
      var n := |xs| - 1;
      var v := WatchCycles(r.m, c, w, xs[..n]);
      FetchesPrefix(r.m, c, limit, w, xs);
      WatchMonotone(r.m, c, v, xs[n]);
      PlacedBelow(r, c, ExecIndex(v.f.pipe), ExecIndex(WatchCycle(r.m, c, v, xs[n]).f.pipe));
      u := CyclesProgress(r, c, w, t, xs[..n], limit, init);
      if u.sys.pipe.run {
        u := CycleProgress(r, c, v, u, xs[n], limit, init);
      } else {
        u := CycleStopped(r, c, v, u, xs[n], init);
      }
    }
  }

  lemma WatchMonotone(m: Machine, c: Config, w: Watched, x: Inputs)
    requires Shaped(c, w.f.hier)
    ensures ExecIndex(w.f.pipe) <= ExecIndex(WatchCycle(m, c, w, x).f.pipe)
  {
    CycleMonotoneMachine(m, c, w.f, x);
    hide AfterCycle, BeforeCore, ExecIndex;
  }

  /** A stopped core stays as it is. */
  lemma CycleStopped(r: Ref, c: Config, w: Watched, t: Timed, x: Inputs, init: Mem) returns (u: Timed)
    requires MachineAt(r, c, w, t, init) && !t.sys.pipe.run
    requires GoodAndPlaced(r, c, ExecIndex(WatchCycle(r.m, c, w, x).f.pipe))
    ensures MachineAt(r, c, WatchCycle(r.m, c, w, x), u, init)
    ensures u.sys.pipe.retired == t.sys.pipe.retired && !u.sys.pipe.run
  {
    var v := WatchCycle(r.m, c, w, x);
    var q := AfterClock(r.m, ReadySys(r.m, c, w.f, t.sys, x), true, x.acceptInst);
    assert MachineOk(r, c, w.f, t.sys, init) && v.f == AfterCycle(r.m, c, w.f, x);
    MachineParts(r, c, w.f, t.sys, init);
    ReadyRuns(r, c, w.f, t.sys, x);
    ReadyRetired(r, c, w.f, t.sys, x);
    assert q == ReadySys(r.m, c, w.f, t.sys, x);
    hide *;
    CycleKeepsMachine(r, c, w.f, t.sys, x, init);
    u := Rewound(r, c, v, q, init);
  }

  /** Bounded progress of the whole machine: the cache answers within its delays,
      so if instruction memory lets no fetch wait for more than `limit` cycles,
      `limit` being at least those delays, then within 11 + 4 * limit cycles an
      instruction retires. */
  lemma MachineRetires(r: Ref, c: Config, w: Watched, s: Sys, xs: seq<Inputs>, limit: nat, init: Mem) returns (q: Sys)
    requires Shaped(c, w.f.hier) && MachineOk(r, c, w.f, s, init) && Delay(c) <= limit && |xs| == Bound(limit)
    requires FetchesPrompt(r.m, c, limit, w, xs) && GoodAndPlaced(r, c, ExecIndex(WatchCycles(r.m, c, w, xs).f.pipe))
    ensures var g := WatchCycles(r.m, c, w, xs).f;
            && MachineOk(r, c, g, q, init)
            && (w.f.pipe.run ==> g.pipe.retired > w.f.pipe.retired)
            && (!w.f.pipe.run ==> !g.pipe.run)
  {
    var t := Rewound(r, c, w, s, init);
    var v := WatchCycles(r.m, c, w, xs);
    FetchesPromptEnds(r.m, c, limit, w, xs);
    hide *;
    var u: Timed;
    AtPrompt(r, c, w, t, limit, init);
    if s.pipe.run {
      u := CyclesProgress(r, c, w, t, xs, limit, init);
      AtPrompt(r, c, v, u, limit, init);
      DistanceBounds(limit, t);
      DistanceBounds(limit, u);
    } else {
      u := CyclesStopped(r, c, w, t, xs, init);
      AtPrompt(r, c, v, u, limit, init);
    }
    AtOk(r, c, v, u, init);
    q := u.sys;
  }

  lemma AtOk(r: Ref, c: Config, w: Watched, t: Timed, init: Mem)
    requires MachineAt(r, c, w, t, init)
    ensures MachineOk(r, c, w.f, t.sys, init)
  {
    hide MachineOk, WaitsAre;
  }

  lemma FetchesPromptEnds(m: Machine, c: Config, limit: nat, w: Watched, xs: seq<Inputs>)
    requires Shaped(c, w.f.hier) && FetchesPrompt(m, c, limit, w, xs)
    ensures w.fetchWait <= limit && WatchCycles(m, c, w, xs).fetchWait <= limit
  {
    hide WatchCycle;
    assert xs[..0] == [] && xs[..|xs|] == xs;
    assert WatchCycles(m, c, w, []) == w;
  }

  lemma {:induction false} CyclesStopped(r: Ref, c: Config, w: Watched, t: Timed, xs: seq<Inputs>, init: Mem)
    returns (u: Timed)
    requires Shaped(c, w.f.hier) && MachineAt(r, c, w, t, init) && !t.sys.pipe.run
    requires GoodAndPlaced(r, c, ExecIndex(WatchCycles(r.m, c, w, xs).f.pipe))
    ensures MachineAt(r, c, WatchCycles(r.m, c, w, xs), u, init) && !u.sys.pipe.run
    decreases |xs|
  {
    hide MachineAt, GoodAndPlaced, WatchCycle, ExecIndex;
    if xs == [] {
      u := t;
    } else {
      var n := |xs| - 1;
      var v := WatchCycles(r.m, c, w, xs[..n]);
      WatchMonotone(r.m, c, v, xs[n]);
      PlacedBelow(r, c, ExecIndex(v.f.pipe), ExecIndex(WatchCycle(r.m, c, v, xs[n]).f.pipe));
      u := CyclesStopped(r, c, w, t, xs[..n], init);
      u := CycleStopped(r, c, v, u, xs[n], init);
    }
  }

  // ------------------------------------------------------------- termination

  lemma {:induction false} WatchAppend(m: Machine, c: Config, w: Watched, xs: seq<Inputs>, ys: seq<Inputs>)
    requires Shaped(c, w.f.hier)
    ensures WatchCycles(m, c, w, xs + ys) == WatchCycles(m, c, WatchCycles(m, c, w, xs), ys)
    decreases |ys|
  {
    hide WatchCycle;
    if ys == [] {
      assert xs + ys == xs;
    } else {
      var n := |ys| - 1;
      assert (xs + ys)[..|xs| + n] == xs + ys[..n];
      WatchAppend(m, c, w, xs, ys[..n]);
    }
  }

  lemma FetchesSplit(m: Machine, c: Config, limit: nat, w: Watched, xs: seq<Inputs>, ys: seq<Inputs>)
    requires Shaped(c, w.f.hier) && FetchesPrompt(m, c, limit, w, xs + ys)
    ensures FetchesPrompt(m, c, limit, w, xs) && FetchesPrompt(m, c, limit, WatchCycles(m, c, w, xs), ys)
  {
    hide WatchCycles;
    forall k | 0 <= k <= |xs| ensures WatchCycles(m, c, w, xs[..k]).fetchWait <= limit {
      assert (xs + ys)[..k] == xs[..k];
    }
    forall k | 0 <= k <= |ys| ensures WatchCycles(m, c, WatchCycles(m, c, w, xs), ys[..k]).fetchWait <= limit {
      assert (xs + ys)[..|xs| + k] == xs + ys[..k];
      WatchAppend(m, c, w, xs, ys[..k]);
    }
  }

  /** What comes right behind the exit is placed whatever it is. */
  lemma PlacedBehind(r: Ref, c: Config, n: nat)
    requires ExitAt(r, n) && GoodAndPlaced(r, c, n)
    ensures GoodAndPlaced(r, c, n + 1)
  {
    hide Supported, Exits, Run, NoExitYet, AccessOf, PacketOk;
    forall k: nat | k < n + 1 ensures PlacedAt(r, c, k) {}
  }

  /** No cycle of the machine executes anything beyond the instruction behind the
      exit. */
  lemma FewInMachineCycle(r: Ref, c: Config, f: SimState, s: Sys, x: Inputs, n: nat, init: Mem)
    requires MachineOk(r, c, f, s, init) && ExitAt(r, n)
    ensures ExecIndex(AfterCycle(r.m, c, f, x).pipe) <= n + 1
  {
    MachineParts(r, c, f, s, init);
    assert Sim(c, f, s, init);
    hide *;
    var t := ReadySys(r.m, c, f, s, x);
    BeforeCoreSim(r, c, f, s, x, init);
    var g := BeforeCore(r.m, c, f, x);
    SimShaped(c, g, t, init);
    FewExecuted(r, t, Clock(true, x.acceptInst), n);
    CycleEnds(r.m, c, f, x);
    CorePipe(r.m, c, g, t, x.acceptInst);
    TimeFrame(r.m, c, NextFull(r.m, c, g, CoreCycle(x.acceptInst)));
  }

  lemma CorePipe(m: Machine, c: Config, g: SimState, t: Sys, acceptInst: bool)
    requires Shaped(c, g.hier) && g.pipe == t.pipe && SingleOk(g.hier)
    ensures NextFull(m, c, g, CoreCycle(acceptInst)).pipe == Next(m, t, Clock(true, acceptInst)).pipe
  {
    FewPending(g.hier);
    hide Cycle, Submit, SingleOk;
  }

  /** One more cycle is a cycle in which they are met. */
  lemma MachineOnce(r: Ref, c: Config, v: Watched, p: Sys, x: Inputs, n: nat, init: Mem) returns (q: Sys)
    requires Shaped(c, v.f.hier) && MachineOk(r, c, v.f, p, init) && ExitAt(r, n) && GoodAndPlaced(r, c, n + 1)
    ensures MachineOk(r, c, WatchCycle(r.m, c, v, x).f, q, init)
    ensures GoodAndPlaced(r, c, ExecIndex(WatchCycle(r.m, c, v, x).f.pipe))
  {
    hide *;
    FewInMachineCycle(r, c, v.f, p, x, n, init);
    WatchIs(r.m, c, v, x);
    PlacedBelow(r, c, ExecIndex(AfterCycle(r.m, c, v.f, x).pipe), n + 1);
    CycleKeepsMachine(r, c, v.f, p, x, init);
    q := AfterClock(r.m, ReadySys(r.m, c, v.f, p, x), true, x.acceptInst);
  }

  lemma NoMoreCycles(m: Machine, c: Config, w: Watched, xs: seq<Inputs>)
    requires Shaped(c, w.f.hier)
    ensures xs == [] ==> WatchCycles(m, c, w, xs) == w
    ensures xs != [] ==>
              WatchCycles(m, c, w, xs) == WatchCycle(m, c, WatchCycles(m, c, w, xs[..|xs| - 1]), xs[|xs| - 1])
  {
    hide WatchCycle;
  }

  lemma FewAtStart(r: Ref, c: Config, f: SimState, s: Sys, n: nat, init: Mem)
    requires MachineOk(r, c, f, s, init) && ExitAt(r, n)
    ensures ExecIndex(f.pipe) <= n + 1
  {
    hide *;
    MachineParts(r, c, f, s, init);
    FewNow(r, s, n);
  }

  /** So the conditions on the program are met in every run of the machine. */
  lemma {:induction false} MachineRun(r: Ref, c: Config, w: Watched, s: Sys, xs: seq<Inputs>, n: nat, init: Mem)
    returns (q: Sys)
    requires Shaped(c, w.f.hier) && MachineOk(r, c, w.f, s, init) && ExitAt(r, n) && GoodAndPlaced(r, c, n)
    ensures MachineOk(r, c, WatchCycles(r.m, c, w, xs).f, q, init)
    ensures GoodAndPlaced(r, c, ExecIndex(WatchCycles(r.m, c, w, xs).f.pipe))
    decreases |xs|
  {
    hide *;
    PlacedBehind(r, c, n);
    NoMoreCycles(r.m, c, w, xs);
    if xs == [] {
      q := s;
      FewAtStart(r, c, w.f, s, n, init);
      PlacedBelow(r, c, ExecIndex(w.f.pipe), n + 1);
    } else {
      var k := |xs| - 1;
      var p := MachineRun(r, c, w, s, xs[..k], n, init);
      q := MachineOnce(r, c, WatchCycles(r.m, c, w, xs[..k]), p, xs[k], n, init);
    }
  }

  lemma WatchIs(m: Machine, c: Config, w: Watched, x: Inputs)
    requires Shaped(c, w.f.hier)
    ensures WatchCycle(m, c, w, x).f == AfterCycle(m, c, w.f, x)
  {
    hide AfterCycle, BeforeCore;
  }

  lemma FewNow(r: Ref, s: Sys, n: nat)
    requires Inv(r, s) && ExitAt(r, n)
    ensures ExecIndex(s.pipe) <= n + 1
  {
    hide *;
    FewRetired(r, s, n);
    Counts(s.pipe);
    if !s.pipe.run { StoppedHasNoWb(r, s); }
  }

  lemma StoppedHasNoWb(r: Ref, s: Sys)
    requires Inv(r, s) && !s.pipe.run
    ensures s.pipe.wbOp.None?
  {
    hide Run, Exits, RefLog, AccessLog, Executed;
  }

  /** Every 11 + 4 * limit cycles an instruction retires, until the run stops. */
  lemma {:induction false} KeepsRetiring(r: Ref, c: Config, w: Watched, s: Sys, xs: seq<Inputs>, k: nat, limit: nat,
                                          n: nat, init: Mem)
    returns (q: Sys)
    requires Shaped(c, w.f.hier) && MachineOk(r, c, w.f, s, init) && ExitAt(r, n) && GoodAndPlaced(r, c, n)
    requires Delay(c) <= limit && |xs| == k * Bound(limit) && FetchesPrompt(r.m, c, limit, w, xs)
    ensures var g := WatchCycles(r.m, c, w, xs).f;
            && MachineOk(r, c, g, q, init) && (g.pipe.run ==> g.pipe.retired >= w.f.pipe.retired + k)
    decreases k
  {
    hide *;
    if k == 0 {
      q := s;
      NoCycles(r.m, c, w, xs);
    } else {
      var m := (k - 1) * Bound(limit);
      Multiply(k, Bound(limit));
      var xs1, ys := xs[..m], xs[m..];
      assert xs1 + ys == xs;
      var v := WatchCycles(r.m, c, w, xs1);
      FetchesSplit(r.m, c, limit, w, xs1, ys);
      WatchAppend(r.m, c, w, xs1, ys);
      q := KeepsRetiring(r, c, w, s, xs1, k - 1, limit, n, init);
      var p := MachineRun(r, c, v, q, ys, n, init);
      q := MachineRetires(r, c, v, q, ys, limit, init);
    }
  }

  lemma Multiply(k: nat, b: nat)
    requires k > 0
    ensures k * b == (k - 1) * b + b && (k - 1) * b >= 0
  {
  }

  lemma NoCycles(m: Machine, c: Config, w: Watched, xs: seq<Inputs>)
    requires Shaped(c, w.f.hier) && |xs| == 0
    ensures WatchCycles(m, c, w, xs) == w
  {
    hide WatchCycle;
  }

  lemma Finishes(r: Ref, c: Config, w: Watched, s: Sys, xs: seq<Inputs>, ys: seq<Inputs>, n: nat, limit: nat, init: Mem)
    returns (q: Sys)
    requires Shaped(c, w.f.hier) && MachineOk(r, c, w.f, s, init) && ExitAt(r, n) && GoodAndPlaced(r, c, n)
    requires Delay(c) <= limit && |xs| == n * Bound(limit) && FetchesPrompt(r.m, c, limit, w, xs + ys)
    ensures var f := WatchCycles(r.m, c, w, xs + ys).f;
            MachineOk(r, c, f, q, init) && !f.pipe.run
  {
    hide *;
    FetchesSplit(r.m, c, limit, w, xs, ys);
    WatchAppend(r.m, c, w, xs, ys);
    q := KeepsRetiring(r, c, w, s, xs, n, limit, n, init);
    q := StaysFinished(r, c, WatchCycles(r.m, c, w, xs), q, ys, n, init);
  }

  /** The machine finishes. If the instruction set exits after `n` instructions,
      all of them supported and placed, and instruction memory lets no fetch wait
      for more than `limit` cycles, then the machine has stopped after
      n * (11 + 4 * limit) cycles, whatever its predictor, geometry, delays and
      victims; with the registers, the pc and the memory of the instruction set,
      and HI and LO as after any stop. */
  lemma MachineFinishes(m: Machine, c: Config, bp: Predictor, init: Mem, xs: seq<Inputs>, n: nat, limit: nat)
    requires ValidConfig(c) && EmptyBtb(bp) && Delay(c) <= limit && |xs| >= n * Bound(limit)
    requires ExitAt(Ref(m, StartArch(init)), n) && GoodAndPlaced(Ref(m, StartArch(init)), c, n)
    requires FetchesPrompt(m, c, limit, Watched(StartFull(c, bp, init), 0), xs)
    ensures var r := Ref(m, StartArch(init));
            var f := WatchCycles(m, c, Watched(StartFull(c, bp, init), 0), xs).f;
            && !f.pipe.run && f.pipe.retired == n && !f.pipe.crashed && !f.hier.crashed
            && f.pipe.regs == r.At(n).regs && f.pipe.pc == r.At(n - 1).pc && Coherent(c, f.hier, r.At(n).mem)
            && HiLoAfterExit(m, r.At(n), f.pipe)
  {
    hide *;
    var r := Ref(m, StartArch(init));
    var w := Watched(StartFull(c, bp, init), 0);
    StartIsOk(m, c, bp, init);
    var xs1, ys := xs[..n * Bound(limit)], xs[n * Bound(limit)..];
    assert xs1 + ys == xs;
    var q := Finishes(r, c, w, StartSys(bp, init), xs1, ys, n, limit, init);
    FinalState(r, c, WatchCycles(m, c, w, xs).f, q, n, init);
  }

  lemma ExitIsLater(r: Ref, n: nat)
    requires ExitAt(r, n)
    ensures n > 0
  {
  }

  lemma StaysFinished(r: Ref, c: Config, w: Watched, s: Sys, ys: seq<Inputs>, n: nat, init: Mem) returns (q: Sys)
    requires Shaped(c, w.f.hier) && MachineOk(r, c, w.f, s, init) && ExitAt(r, n) && GoodAndPlaced(r, c, n)
    requires w.f.pipe.run ==> w.f.pipe.retired >= n
    ensures MachineOk(r, c, WatchCycles(r.m, c, w, ys).f, q, init) && !WatchCycles(r.m, c, w, ys).f.pipe.run
  {
    hide *;
    MachineParts(r, c, w.f, s, init);
    FewRetired(r, s, n);
    q := MachineRun(r, c, w, s, ys, n, init);
    var t := Rewound(r, c, w, s, init);
    var u := CyclesStopped(r, c, w, t, ys, init);
    var v := WatchCycles(r.m, c, w, ys);
    AtOk(r, c, v, u, init);
    MachineParts(r, c, v.f, u.sys, init);
  }

  lemma FinalState(r: Ref, c: Config, f: SimState, s: Sys, n: nat, init: Mem)
    requires MachineOk(r, c, f, s, init) && ExitAt(r, n) && !f.pipe.run
    ensures n > 0 && !f.pipe.run && f.pipe.retired == n && !f.pipe.crashed && !f.hier.crashed
    ensures f.pipe.regs == r.At(n).regs && f.pipe.pc == r.At(n - 1).pc && Coherent(c, f.hier, r.At(n).mem)
    ensures HiLoAfterExit(r.m, r.At(n), f.pipe)
  {
    MachineParts(r, c, f, s, init);
    assert Sim(c, f, s, init) && n > 0;
    hide Inv, Sim, Coherent, MachineOk, Run, Exits, NoExitYet, HiLoAfterExit, RefLog, AccessLog, Timely, Waited,
         NotRefused;
    FewRetired(r, s, n);
    SimPipe(c, f, s, init);
    InvShows(r, s);
    CoherentNow(c, f.hier, init);
  }
}
