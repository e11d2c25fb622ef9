/** The machine with an instruction memory that accepts every fetch and answers
    it before the next cycle: nothing is left open, and it runs every program
    that exits to its end. */
module PromptFetches {
  import opened Isa
  import opened Packets
  import opened PredictorSpec
  import opened PipeSpec
  import opened PipeSystem
  import opened PipeInvariant
  import opened PipeStages
  import opened PipeRuns
  import opened PipeProgress
  import opened PipeSchedules
  import opened Geometry
  import opened CacheSpec
  import opened CacheInvariant
  import opened Simulation
  import opened SimulatorLoop
  import opened MachineProgress

  predicate AnswersAtOnce(x: Inputs) {
    x.acceptInst && x.answers == [0]
  }

  /** At most one fetch is under way, and it is that of the op in fetch if this
      still has to wait. */
  predicate FetchOnTime(s: Sys) {
    && |s.fetches| <= 1
    && (s.pipe.fetchOp.Some? ==>
          && s.pipe.fetchOp.value.isFetchIssued
          && (s.pipe.fetchOp.value.readyForNextStage || s.fetches == [FetchPacketFor(s.pipe.fetchOp.value.pc)]))
  }

  /** No fetch is under way, and the op in fetch has its instruction word. */
  predicate FetchArrived(s: Sys) {
    && s.fetches == []
    && (s.pipe.fetchOp.Some? ==> s.pipe.fetchOp.value.isFetchIssued && s.pipe.fetchOp.value.readyForNextStage)
  }

  lemma ReplyFetchSame(p: Pipe, pkt: Packet)
    requires !pkt.isWrite ==> |pkt.data| == pkt.size
    ensures var q := RecvResp(p, pkt);
            && q.fetchOp.Some? == p.fetchOp.Some?
            && (p.fetchOp.Some? ==>
                  && q.fetchOp.value.pc == p.fetchOp.value.pc
                  && q.fetchOp.value.isFetchIssued == p.fetchOp.value.isFetchIssued
                  && (p.fetchOp.value.readyForNextStage ==> q.fetchOp.value.readyForNextStage))
  {
    ReplyReadies(p, pkt);
    ReplyFetchPc(p, pkt);
    hide RecvResp;
  }

  lemma ReplyFetchPc(p: Pipe, pkt: Packet)
    requires !pkt.isWrite ==> |pkt.data| == pkt.size
    ensures var q := RecvResp(p, pkt);
            p.fetchOp.Some? && q.fetchOp.Some? ==> q.fetchOp.value.pc == p.fetchOp.value.pc
  {
    hide WordOf, LoadReply;
    match pkt.ptype
    case FetchPacket =>
    case LoadPacket =>
    case StorePacket =>
    case WriteBackPacket =>
    case PrefetchPacket =>
  }

  lemma ServedOnTime(s: Sys, served: bool)
    requires FetchOnTime(s)
    ensures FetchOnTime(MaybeServed(s, served))
  {
    hide RecvResp, Served, After;
    if served && s.dataReqs != [] {
      ServedSize(s.mem, s.dataReqs[0]);
      ReplyFetchSame(s.pipe, Served(s.mem, s.dataReqs[0]));
    }
  }

  lemma AnswerArrives(m: Machine, s: Sys)
    requires FetchOnTime(s)
    ensures FetchArrived(AfterFetch(m, s, 0))
  {
    if s.fetches != [] {
      assert Without(s.fetches, 0) == [];
      FetchedSize(m.text, s.fetches[0]);
      ReplyFetchSame(s.pipe, Fetched(m.text, s.fetches[0]));
    }
    hide WordOf, ByteOf;
  }

  lemma ReadyArrives(m: Machine, c: Config, f: SimState, s: Sys, x: Inputs)
    requires Shaped(c, f.hier) && FetchOnTime(s) && AnswersAtOnce(x)
    ensures FetchArrived(ReadySys(m, c, f, s, x))
  {
    var served := Serves(m, c, f, x);
    hide FetchOnTime, FetchArrived, Serves, AfterFetch, AfterData, Replies;
    ServedOnTime(s, served);
    AnswerArrives(m, MaybeServed(s, served));
    RepliesAre(m, s, served, x.answers);
    OneAnswer(m, MaybeServed(s, served), x.answers);
  }

  lemma OneAnswer(m: Machine, s: Sys, answers: seq<nat>)
    requires answers == [0]
    ensures Replied(m, s, FetchReplies(answers)) == AfterFetch(m, s, 0)
  {
    hide AfterFetch;
    assert FetchReplies(answers) == [FetchReply(0)];
    assert [FetchReply(0)][..0] == [];
  }

  /** A cycle starts at most one fetch, which is accepted. */
  lemma ClockOnTime(m: Machine, s: Sys)
    requires FetchArrived(s) && FetchPhase(s.pipe) == Idle
    ensures FetchOnTime(AfterClock(m, s, true, true))
  {
    hide Cycle;
    if s.pipe.run { CycleFetches(m, s.pipe); }
  }

  lemma CycleFetches(m: Machine, p: Pipe)
    requires p.run && (p.fetchOp.Some? ==> p.fetchOp.value.isFetchIssued && p.fetchOp.value.readyForNextStage)
    ensures var r := Cycle(m, p, true, true);
            r.pipe.fetchOp.Some? ==>
              && r.pipe.fetchOp.value.isFetchIssued
              && (r.pipe.fetchOp.value.readyForNextStage || r.inst == Some(FetchPacketFor(r.pipe.fetchOp.value.pc)))
  {
    hide MemStage, ExecuteStage, DecodeStage, FetchStage;
    var w := WbStage(p);
    if w.run {
      MemFrame(w, true);
      var x := ExecuteStage(m, MemStage(w, true).0);
      ExecuteKeepsFetch(m, MemStage(w, true).0);
      DecodeKeepsFetch(x);
      FetchOf(DecodeStage(x));
    }
  }

  lemma FetchOf(p: Pipe)
    requires p.fetchOp.Some? ==> p.fetchOp.value.isFetchIssued && p.fetchOp.value.readyForNextStage
    ensures var (q, inst) := FetchStage(p, true);
            q.fetchOp.Some? ==>
              && q.fetchOp.value.isFetchIssued
              && (q.fetchOp.value.readyForNextStage || inst == Some(FetchPacketFor(q.fetchOp.value.pc)))
  {
    hide PredictedPc;
  }

  lemma ExecuteKeepsFetch(m: Machine, p: Pipe)
    ensures ExecuteStage(m, p).fetchOp == p.fetchOp
  {
    hide ExecuteReady, GetRegisterState;
    forall op ensures ExecuteReady(m, TickStall(p), op).fetchOp == p.fetchOp { ReadyKeepsFetch(m, TickStall(p), op); }
  }

  lemma ReadyKeepsFetch(m: Machine, p: Pipe, op: Op)
    ensures ExecuteReady(m, p, op).fetchOp == p.fetchOp
  {
    hide ExecOp, Update, WaitsForHiLo, NextPc;
  }

  lemma ArrivedIsIdle(s: Sys)
    requires FetchArrived(s)
    ensures FetchPhase(s.pipe) == Idle
  {
  }

  /** With such inputs no fetch ever waits. */
  lemma {:induction false} NoFetchWaits(r: Ref, c: Config, w: Watched, s: Sys, xs: seq<Inputs>, n: nat, init: Mem)
    returns (q: Sys)
    requires Shaped(c, w.f.hier) && MachineOk(r, c, w.f, s, init) && ExitAt(r, n) && GoodAndPlaced(r, c, n)
    requires w.fetchWait == 0 && FetchOnTime(s) && forall k :: 0 <= k < |xs| ==> AnswersAtOnce(xs[k])
    ensures var v := WatchCycles(r.m, c, w, xs);
            MachineOk(r, c, v.f, q, init) && FetchOnTime(q) && v.fetchWait == 0
    decreases |xs|
  {
    hide MachineOk, ExitAt, GoodAndPlaced, WatchCycle, ExecIndex, ReadySys, AfterClock, FetchOnTime, AnswersAtOnce;
    if xs == [] {
      q := s;
    } else {
      var k := |xs| - 1;
      var p := NoFetchWaits(r, c, w, s, xs[..k], n, init);
      q := OneMoreCycle(r, c, WatchCycles(r.m, c, w, xs[..k]), p, xs[k], n, init);
    }
  }

  lemma OneMoreCycle(r: Ref, c: Config, w: Watched, s: Sys, x: Inputs, n: nat, init: Mem) returns (q: Sys)
    requires Shaped(c, w.f.hier) && MachineOk(r, c, w.f, s, init) && ExitAt(r, n) && GoodAndPlaced(r, c, n)
    requires FetchOnTime(s) && AnswersAtOnce(x)
    ensures var v := WatchCycle(r.m, c, w, x);
            MachineOk(r, c, v.f, q, init) && FetchOnTime(q) && v.fetchWait == 0
  {
    var t := ReadySys(r.m, c, w.f, s, x);
    q := AfterClock(r.m, t, true, x.acceptInst);
    assert x.acceptInst;
    assert Sim(c, w.f, s, init) && Inv(r, s);
    hide *;
    PlacedBehind(r, c, n);
    FewInMachineCycle(r, c, w.f, s, x, n, init);
    PlacedBelow(r, c, ExecIndex(AfterCycle(r.m, c, w.f, x).pipe), n + 1);
    CycleKeepsMachine(r, c, w.f, s, x, init);
    BeforeCoreSim(r, c, w.f, s, x, init);
    SimShaped(c, BeforeCore(r.m, c, w.f, x), t, init);
    ReadyArrives(r.m, c, w.f, s, x);
    ArrivedIsIdle(t);
    ClockOnTime(r.m, t);
    WatchIs(r.m, c, w, x);
    NoWait(r.m, c, w, x);
  }

  lemma NoWait(m: Machine, c: Config, w: Watched, x: Inputs)
    requires Shaped(c, w.f.hier) && FetchPhase(BeforeCore(m, c, w.f, x).pipe) == Idle
    ensures WatchCycle(m, c, w, x).fetchWait == 0
  {
    hide BeforeCore, AfterCycle, FetchPhase;
  }

  /** With nothing left open: a program that exits after `n` supported and placed
      instructions has been run to its end after n * (11 + 4 * (delay + memDelay))
      cycles. */
  lemma PromptMachineFinishes(m: Machine, c: Config, bp: Predictor, init: Mem, xs: seq<Inputs>, n: nat)
    requires ValidConfig(c) && EmptyBtb(bp) && |xs| >= n * Bound(Delay(c))
    requires ExitAt(Ref(m, StartArch(init)), n) && GoodAndPlaced(Ref(m, StartArch(init)), c, n)
    requires forall k :: 0 <= k < |xs| ==> AnswersAtOnce(xs[k])
    ensures var r := Ref(m, StartArch(init));
            var f := WatchCycles(m, c, Watched(StartFull(c, bp, init), 0), xs).f;
            && !f.pipe.run && f.pipe.retired == n && !f.pipe.crashed && !f.hier.crashed
            && f.pipe.regs == r.At(n).regs && f.pipe.pc == r.At(n - 1).pc && Coherent(c, f.hier, r.At(n).mem)
            && HiLoAfterExit(m, r.At(n), f.pipe)
  {
    var r := Ref(m, StartArch(init));
    var w := Watched(StartFull(c, bp, init), 0);
    var s := StartSys(bp, init);
    hide *;
    StartOnTime(bp, init);
    ExitIsLater(r, n);
    StartIsOk(m, c, bp, init);
    NeverWaits(r, c, w, s, xs, n, init);
    MachineFinishes(m, c, bp, init, xs, n, Delay(c));
  }

  lemma StartOnTime(bp: Predictor, init: Mem)
    ensures FetchOnTime(StartSys(bp, init))
  {
  }

  lemma NeverWaits(r: Ref, c: Config, w: Watched, s: Sys, xs: seq<Inputs>, n: nat, init: Mem)
    requires Shaped(c, w.f.hier) && MachineOk(r, c, w.f, s, init) && ExitAt(r, n) && GoodAndPlaced(r, c, n)
    requires w.fetchWait == 0 && FetchOnTime(s) && forall k :: 0 <= k < |xs| ==> AnswersAtOnce(xs[k])
    ensures FetchesPrompt(r.m, c, Delay(c), w, xs)
  {
    hide MachineOk, ExitAt, GoodAndPlaced, WatchCycles, FetchOnTime, AnswersAtOnce;
    forall k | 0 <= k <= |xs| ensures WatchCycles(r.m, c, w, xs[..k]).fetchWait <= Delay(c) {
      var q := NoFetchWaits(r, c, w, s, xs[..k], n, init);
    }
  }
}
