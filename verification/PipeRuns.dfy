/** The main results about the pipeline: over every run, whatever the memories
    and the predictor do, it executes the instruction set. */
module PipeRuns {
  import opened Isa
  import opened Packets
  import opened PredictorSpec
  import opened PipeSpec
  import opened IsaAgreement
  import opened PipeSystem
  import opened PipeInvariant
  import opened PipeStages
  import opened PipeCycle

  /** A reply to any fetch, stale or not, is harmless: it either does not
      concern the op in fetch, or carries the word at that op's pc. */
  lemma FetchReplyKeeps(r: Ref, p: Pipe, mem: Mem, reqs: seq<Packet>, pkt: Packet)
    requires PipeOk(r, p, mem, reqs)
    requires pkt.ptype == FetchPacket && !pkt.isWrite && pkt.size == 4
    ensures var q := RecvResp(p, Fetched(r.m.text, pkt));
            && PipeOk(r, q, mem, reqs) && ExecIndex(q) == ExecIndex(p) && q.retired == p.retired
            && AccessIndex(q) == AccessIndex(p) && q.run == p.run
  {
    BytesJoin(r.m.text(pkt.addr));
    hide WordOf, ByteOf, Run, Completed, OpInMemory, Exits, Link, Executed, Supported, DecodedOp, FetchedOp, BtbOk;
  }

  lemma StoreReplyFlag(text: Text, t: Arch, op: Op)
    requires AccessOp(text, t, op) && Completed(text, t, op)
    ensures var b := op.(readyForNextStage := true);
            AccessOp(text, t, b) && Completed(text, t, b)
  {
    hide Step, Exits, Supported, Opcode, Rs, Rt, Imm, AccessAddr;
  }

  /** Serving the accepted access performs it and completes its op. */
  lemma AccessAnswered(text: Text, t: Arch, p: Pipe, op: Op, mem: Mem, reqs: seq<Packet>)
    requires p.memOp == Some(op) && OpInMemory(text, t, op, mem, reqs) && reqs != []
    ensures reqs == [reqs[0]]
    ensures var pkt := reqs[0];
            var q := RecvResp(p, Served(mem, pkt));
            && q.memOp.Some? && OpInMemory(text, t, q.memOp.value, After(mem, pkt), [])
            && q == p.(memOp := q.memOp)
            && !op.readyForNextStage && q.memOp.value.readyForNextStage
            && q.memOp.value.memTried == op.memTried && q.memOp.value.isMem == op.isMem
            && q.memOp.value.waitOnPktIssue == op.waitOnPktIssue
  {
    var pkt := reqs[0];
    if IsLoad(op) {
      LoadCompletes(text, t, op, pkt);
    } else {
      StoreCompletes(text, t, op, pkt);
      StoreReplyFlag(text, t, op);
    }
    hide Step, Exits, Supported, Opcode, Rs, Rt, Imm, AccessAddr, Completed, Extract, WordOf, After;
  }

  /** A request is outstanding only while its op waits in the memory stage. */
  lemma RequestHasOp(r: Ref, p: Pipe, mem: Mem, reqs: seq<Packet>)
    requires PipeOk(r, p, mem, reqs) && reqs != []
    ensures p.run && !Draining(p) && WbOk(r, p) && FrontOk(r.m.text, p) && PathOk(r, p)
    ensures p.memOp.Some? && OpInMemory(r.m.text, r.At(MemIndex(p)), p.memOp.value, mem, reqs)
    ensures |reqs| == 1 && p.memOp.value.memPkt == Some(reqs[0])
  {
    hide WbOk, FrontOk, PathOk, AccessOp, GoodAccess, Run, Completed, Step, Exits;
  }

  /** Only the op in the memory stage changed. */
  lemma ReplyFrame(r: Ref, p: Pipe, q: Pipe, mem: Mem, reqs: seq<Packet>)
    requires p.run && !p.recover && !p.crashed && !Draining(p) && WbOk(r, p) && FrontOk(r.m.text, p) && PathOk(r, p)
    requires p.memOp.Some? && q.memOp.Some? && q == p.(memOp := q.memOp)
    requires OpInMemory(r.m.text, r.At(MemIndex(q)), q.memOp.value, mem, reqs)
    requires q.memOp.value.memTried == p.memOp.value.memTried && q.memOp.value.isMem == p.memOp.value.isMem
    requires q.memOp.value.waitOnPktIssue == p.memOp.value.waitOnPktIssue
    ensures PipeOk(r, q, mem, reqs) && ExecIndex(q) == ExecIndex(p) && AccessIndex(q) == AccessIndex(p)
  {
    hide OpInMemory, Run, Completed, Step, Exits, DecodedOp, FetchedOp, FetchForm, BtbOk, Link;
    assert FrontOk(r.m.text, q);
    assert PathOk(r, q);
    WbFrame(r, p, q);
  }

  /** The only accepted access is that of the op in the memory stage; its reply
      performs it and completes the op. */
  lemma DataReplyKeeps(r: Ref, s: Sys, i: nat)
    requires Inv(r, s) && i < |s.dataReqs|
    ensures |s.dataReqs| == 1 && s.pipe.memOp.Some? && s.pipe.memOp.value.memPkt == Some(s.dataReqs[0])
    ensures var q := AfterData(s, i);
            Inv(r, q) && ExecIndex(q.pipe) == ExecIndex(s.pipe) && q.pipe.retired == s.pipe.retired
            && q.dataReqs == [] && q.pipe.memOp.Some? && q.pipe.memOp.value.readyForNextStage
  {
    hide PipeOk, OpInMemory, WbOk, FrontOk, PathOk, Run, RecvResp, Served, After;
    var p := s.pipe;
    RequestHasOp(r, p, s.mem, s.dataReqs);
    assert !p.recover && !p.crashed by { NoRecovery(r, p, s.mem, s.dataReqs); }
    var pkt := s.dataReqs[0];
    ServedSize(s.mem, pkt);
    AccessAnswered(r.m.text, r.At(MemIndex(p)), p, p.memOp.value, s.mem, s.dataReqs);
    var q := RecvResp(p, Served(s.mem, pkt));
    ReplyFrame(r, p, q, After(s.mem, pkt), []);
    assert Without(s.dataReqs, i) == [];
    assert AfterData(s, i) == s.(pipe := q, mem := After(s.mem, pkt), dataReqs := []);
  }

  lemma ServedSize(mem: Mem, pkt: Packet)
    ensures var q := Served(mem, pkt);
            q.isWrite == pkt.isWrite && q.size == pkt.size && (!q.isWrite ==> |q.data| == q.size)
  {
  }

  lemma NoRecovery(r: Ref, p: Pipe, mem: Mem, reqs: seq<Packet>)
    requires PipeOk(r, p, mem, reqs)
    ensures !p.recover && !p.crashed
  {
  }

  lemma FetchEventKeeps(r: Ref, s: Sys, j: nat)
    requires Inv(r, s)
    ensures var q := AfterFetch(r.m, s, j);
            Inv(r, q) && ExecIndex(q.pipe) == ExecIndex(s.pipe) && q.pipe.retired == s.pipe.retired
  {
    hide PipeOk, RefLog, RecvResp, Fetched;
    if j < |s.fetches| {
      FetchReplyKeeps(r, s.pipe, s.mem, s.dataReqs, s.fetches[j]);
    }
  }

  lemma ClockKeeps(r: Ref, s: Sys, acceptData: bool, acceptInst: bool)
    requires Inv(r, s) && Good(r, ExecIndex(AfterClock(r.m, s, acceptData, acceptInst).pipe))
    ensures var q := AfterClock(r.m, s, acceptData, acceptInst);
            Inv(r, q) && ExecIndex(s.pipe) <= ExecIndex(q.pipe) <= ExecIndex(s.pipe) + 1
            && s.pipe.retired <= q.pipe.retired
  {
    hide Cycle, Run, Good, PipeOk, RefLog, AccessLog, AccessIndex, NoExitYet;
    if s.pipe.run {
      ExitsStop(r, s.pipe, s.mem, s.dataReqs, acceptData, acceptInst);
      CycleKeeps(r, s.pipe, s.mem, s.dataReqs, acceptData, acceptInst);
      LogGrows(r, s, acceptData, acceptInst);
      CycleIssues(r, s.pipe, s.mem, s.dataReqs, acceptData, acceptInst);
      AddedIssues(s.issued, Cycle(r.m, s.pipe, acceptData, acceptInst).data, acceptData);
    }
  }

  lemma ExecuteMonotone(m: Machine, p: Pipe)
    ensures var q := ExecuteStage(m, p);
            q.retired == p.retired && q.run == p.run && q.wbOp == p.wbOp && (p.memOp.Some? ==> q.memOp.Some?)
  {
    hide GetRegisterState, ExecuteReady, TakeSource1, TakeSource2, IsStore;
    if p.memOp.None? && p.executeOp.Some? {
      var s := TickStall(p);
      var op := s.executeOp.value;
      var op1 := TakeSource1(op, GetRegisterState(s, op.src1));
      ReadyMonotone(m, s, op1);
      ReadyMonotone(m, s, TakeSource2(op1, GetRegisterState(s, op1.src2)));
    }
  }

  lemma ReadyMonotone(m: Machine, s: Pipe, op: Op)
    ensures var q := ExecuteReady(m, s, op);
            q.retired == s.retired && q.run == s.run && q.wbOp == s.wbOp && (s.memOp.Some? ==> q.memOp.Some?)
  {
    hide ExecOp, WaitsForHiLo, ResolveBranch;
    var e := ExecOp(m, op, s.hi, s.lo);
    ResolveFrame(s.(hi := e.hi, lo := e.lo), e.op);
  }

  lemma CycleRetires(m: Machine, p: Pipe, acceptData: bool, acceptInst: bool)
    ensures var q := Cycle(m, p, acceptData, acceptInst).pipe;
            q.run == WbStage(p).run && q.retired == WbStage(p).retired
  {
    hide ExecuteStage, DecodeStage, MemStage, FetchStage;
    var s1 := WbStage(p);
    MemFrame(s1, acceptData);
    var s2 := MemStage(s1, acceptData).0;
    ExecuteMonotone(m, s2);
    var s3 := ExecuteStage(m, s2);
    DecodeSameBack(s3);
    FetchSameBack(DecodeStage(s3), acceptInst);
    RecoveredSameBack(FetchStage(DecodeStage(s3), acceptInst).0);
  }

  /** Retiring an exit syscall, and only that, stops the run. */
  lemma ExitsStop(r: Ref, p: Pipe, mem: Mem, reqs: seq<Packet>, acceptData: bool, acceptInst: bool)
    requires p.run && PipeOk(r, p, mem, reqs) && NoExitYet(r, p.retired)
    ensures NoExitYet(r, UnstoppedCount(Cycle(r.m, p, acceptData, acceptInst).pipe))
  {
    CycleRetires(r.m, p, acceptData, acceptInst);
    hide Cycle, MemOk, FrontOk, PathOk, Run, Step, Exits, DrainOk;
  }

  lemma AddedIssues(q: seq<Packet>, offered: Option<Packet>, accept: bool)
    ensures Added(q, offered, accept) == q + Added([], offered, accept)
  {
  }

  /** The retired instruction is logged with its pc and the registers after it. */
  lemma LogGrows(r: Ref, s: Sys, acceptData: bool, acceptInst: bool)
    requires Inv(r, s) && s.pipe.run
    requires var c := Cycle(r.m, s.pipe, acceptData, acceptInst);
             PipeOk(r, c.pipe, s.mem, Added(s.dataReqs, c.data, acceptData))
             && c.pipe.retired == s.pipe.retired + (if s.pipe.wbOp.Some? then 1 else 0)
    ensures var q := AfterClock(r.m, s, acceptData, acceptInst);
            q.log == RefLog(r, q.pipe.retired)
  {
    hide Cycle, Run, DrainOk, FrontOk, PathOk, MemOk, OpInMemory, Step, Exits;
    var c := Cycle(r.m, s.pipe, acceptData, acceptInst);
    assert c.pipe.regs == r.At(c.pipe.retired).regs;
  }

  /** Every event keeps the invariant and executes at most one instruction. */
  lemma EventKeeps(r: Ref, s: Sys, e: Event)
    requires Inv(r, s) && Good(r, ExecIndex(Next(r.m, s, e).pipe))
    ensures var q := Next(r.m, s, e);
            Inv(r, q) && ExecIndex(s.pipe) <= ExecIndex(q.pipe) <= ExecIndex(s.pipe) + 1
            && s.pipe.retired <= q.pipe.retired
  {
    match e
    case Clock(acceptData, acceptInst) => ClockKeeps(r, s, acceptData, acceptInst);
    case AnswerData(i) => if i < |s.dataReqs| { DataReplyKeeps(r, s, i); }
    case AnswerFetch(j) => FetchEventKeeps(r, s, j);
    hide Inv, AfterClock, AfterData, AfterFetch;
  }

  // --------------------------------------------------------------------- runs

  lemma CycleMonotone(m: Machine, p: Pipe, acceptData: bool, acceptInst: bool)
    ensures ExecIndex(p) <= ExecIndex(Cycle(m, p, acceptData, acceptInst).pipe)
  {
    hide ExecuteStage, DecodeStage, MemStage, FetchStage;
    var s1 := WbStage(p);
    if s1.run {
      MemFrame(s1, acceptData);
      var s2 := MemStage(s1, acceptData).0;
      ExecuteMonotone(m, s2);
      var s3 := ExecuteStage(m, s2);
      DecodeSameBack(s3);
      FetchSameBack(DecodeStage(s3), acceptInst);
      RecoveredSameBack(FetchStage(DecodeStage(s3), acceptInst).0);
    }
  }

  lemma ReplyMonotone(p: Pipe, pkt: Packet)
    requires !pkt.isWrite ==> |pkt.data| == pkt.size
    ensures ExecIndex(p) == ExecIndex(RecvResp(p, pkt))
  {
    hide LoadReply, WordOf;
  }

  lemma EventMonotone(m: Machine, s: Sys, e: Event)
    ensures ExecIndex(s.pipe) <= ExecIndex(Next(m, s, e).pipe)
  {
    hide Cycle, RecvResp, ExecIndex, Served, After, Fetched;
    match e
    case Clock(acceptData, acceptInst) => CycleMonotone(m, s.pipe, acceptData, acceptInst);
    case AnswerData(i) =>
      if i < |s.dataReqs| {
        ServedSize(s.mem, s.dataReqs[i]);
        ReplyMonotone(s.pipe, Served(s.mem, s.dataReqs[i]));
      }
    case AnswerFetch(j) =>
      if j < |s.fetches| {
        FetchedSize(m.text, s.fetches[j]);
        ReplyMonotone(s.pipe, Fetched(m.text, s.fetches[j]));
      }
  }

  lemma FetchedSize(text: Text, pkt: Packet)
    ensures var q := Fetched(text, pkt);
            q.size == |q.data| == 4
  {
  }

  /** The invariant holds after every sequence of events. */
  lemma {:induction false} RunKeeps(r: Ref, s: Sys, es: seq<Event>)
    requires Inv(r, s) && Good(r, ExecIndex(RunSys(r.m, s, es).pipe))
    ensures Inv(r, RunSys(r.m, s, es))
    ensures s.pipe.retired <= RunSys(r.m, s, es).pipe.retired
    decreases |es|
  {
    hide Inv, Next, ExecIndex;
    if es != [] {
      var n := |es| - 1;
      var prior := RunSys(r.m, s, es[..n]);
      EventMonotone(r.m, prior, es[n]);
      assert Good(r, ExecIndex(prior.pipe));
      RunKeeps(r, s, es[..n]);
      EventKeeps(r, prior, es[n]);
    }
  }

  /** The state of the instruction set that the pipeline starts in. */
  function StartArch(mem: Mem): Arch {
    Arch(seq(32, _ => 0), 0, 0, 0x0040_0000, mem)
  }

  /** A predictor whose branch target buffer is empty. */
  predicate EmptyBtb(bp: Predictor) {
    forall i :: 0 <= i < |bp.btb| ==> !bp.btb[i].valid
  }

  lemma StartHolds(m: Machine, bp: Predictor, mem: Mem)
    requires EmptyBtb(bp)
    ensures Inv(Ref(m, StartArch(mem)), StartSys(bp, mem))
  {
  }

  /** What a run that is still going shows: the register file is that of the
      instruction set after exactly the retired instructions, and the registers
      HI and LO after exactly the executed ones. */
  predicate RunningAgrees(r: Ref, s: Sys) {
    var p := s.pipe;
    && p.regs == r.At(p.retired).regs
    && s.log == RefLog(r, p.retired)
    && s.issued == AccessLog(r, AccessIndex(p))
    && (!Draining(p) ==>
          var t := r.At(ExecIndex(p));
          p.hi == t.hi && p.lo == t.lo && Head(p) == t.pc)
    && (s.dataReqs == [] && p.memOp.None? ==> s.mem == r.At(ExecIndex(p)).mem)
  }

  /** What a stopped run shows: registers, memory and the sequence of memory
      requests are those just after the exit syscall, and no younger
      instruction has touched them; only HI and LO can be ahead. */
  predicate StoppedAgrees(r: Ref, s: Sys) {
    var p := s.pipe;
    && p.retired > 0 && Exits(r.m.text, r.At(p.retired - 1))
    && p.pc == r.At(p.retired - 1).pc
    && p.regs == r.At(p.retired).regs && s.mem == r.At(p.retired).mem
    && s.log == RefLog(r, p.retired)
    && s.issued == AccessLog(r, p.retired) && s.dataReqs == []
    && HiLoAfterExit(r.m, r.At(p.retired), p)
  }

  lemma InvShows(r: Ref, s: Sys)
    requires Inv(r, s)
    ensures !s.pipe.crashed
    ensures if s.pipe.run then RunningAgrees(r, s) else StoppedAgrees(r, s)
  {
    hide Run, Completed, OpInMemory, Step, FrontOk, Linked, Exits;
  }

  /** Whole-run equivalence. For any program, any initial data memory, any
      predictor sizes and any sequence of clock cycles, refusals and replies,
      the pipeline has done exactly what the sequential instruction set does. */
  lemma WholeRun(m: Machine, bp: Predictor, mem: Mem, es: seq<Event>)
    requires EmptyBtb(bp)
    requires Good(Ref(m, StartArch(mem)), ExecIndex(RunSys(m, StartSys(bp, mem), es).pipe))
    ensures var r := Ref(m, StartArch(mem));
            var s := RunSys(m, StartSys(bp, mem), es);
            !s.pipe.crashed && if s.pipe.run then RunningAgrees(r, s) else StoppedAgrees(r, s)
  {
    hide Inv, RunSys, Good, StartSys;
    var r := Ref(m, StartArch(mem));
    StartHolds(m, bp, mem);
    RunKeeps(r, StartSys(bp, mem), es);
    InvShows(r, RunSys(m, StartSys(bp, mem), es));
  }

  lemma {:induction false} RefLogPrefix(r: Ref, i: nat, j: nat)
    requires i <= j
    ensures |RefLog(r, i)| == i && RefLog(r, i) <= RefLog(r, j)
    decreases j
  {
    hide Run;
    if i < j {
      RefLogPrefix(r, i, j - 1);
    } else if i > 0 {
      RefLogPrefix(r, i - 1, i - 1);
    }
  }

  /** Timing cannot be seen: two runs of one program with different predictors,
      refusals and latencies retire the same instructions with the same
      registers, up to the shorter of the two. */
  lemma TimingIsInvisible(m: Machine, mem: Mem, bp1: Predictor, es1: seq<Event>, bp2: Predictor, es2: seq<Event>)
    requires EmptyBtb(bp1) && EmptyBtb(bp2)
    requires Good(Ref(m, StartArch(mem)), ExecIndex(RunSys(m, StartSys(bp1, mem), es1).pipe))
    requires Good(Ref(m, StartArch(mem)), ExecIndex(RunSys(m, StartSys(bp2, mem), es2).pipe))
    ensures var s1 := RunSys(m, StartSys(bp1, mem), es1);
            var s2 := RunSys(m, StartSys(bp2, mem), es2);
            && (s1.log <= s2.log || s2.log <= s1.log)
            && (s1.pipe.retired == s2.pipe.retired ==> s1.pipe.regs == s2.pipe.regs)
  {
    hide Inv, RunSys, Good, StartSys, HiLoAfterExit, AccessLog, Exits, Run;
    var r := Ref(m, StartArch(mem));
    WholeRun(m, bp1, mem, es1);
    WholeRun(m, bp2, mem, es2);
    var i := RunSys(m, StartSys(bp1, mem), es1).pipe.retired;
    var j := RunSys(m, StartSys(bp2, mem), es2).pipe.retired;
    if i <= j { RefLogPrefix(r, i, j); } else { RefLogPrefix(r, j, i); }
  }

  lemma StopsAtFirstExit(m: Machine, bp: Predictor, mem: Mem, es: seq<Event>)
    requires EmptyBtb(bp)
    requires Good(Ref(m, StartArch(mem)), ExecIndex(RunSys(m, StartSys(bp, mem), es).pipe))
    requires !RunSys(m, StartSys(bp, mem), es).pipe.run
    ensures var r := Ref(m, StartArch(mem));
            var n := RunSys(m, StartSys(bp, mem), es).pipe.retired;
            n > 0 && Exits(m.text, r.At(n - 1)) && NoExitYet(r, n - 1)
  {
    hide RunSys, Good, StartSys, AccessLog, Exits, Run, PipeOk, RefLog, AccessIndex, HiLoAfterExit;
    var r := Ref(m, StartArch(mem));
    StartHolds(m, bp, mem);
    RunKeeps(r, StartSys(bp, mem), es);
    InvShows(r, RunSys(m, StartSys(bp, mem), es));
  }

  lemma FirstExitIsUnique(r: Ref, i: nat, j: nat)
    requires i > 0 && Exits(r.m.text, r.At(i - 1)) && NoExitYet(r, i - 1)
    requires j > 0 && Exits(r.m.text, r.At(j - 1)) && NoExitYet(r, j - 1)
    ensures i == j
  {
    hide Exits, Run;
  }

  /** The op behind the exit syscall leaves HI and LO as they are. */
  predicate HiLoSettled(m: Machine, t: Arch) {
    Executed(m, t).hi == t.hi && Executed(m, t).lo == t.lo
  }

  /** The promise of the project: whatever the predictor and the memory timing,
      two runs of a program that have stopped agree on the pc, on every register,
      on all of data memory, on the retired instructions and on the memory
      requests; and on HI and LO unless the instruction behind the exit syscall
      would change them. */
  lemma FinalStateIsUnique(m: Machine, mem: Mem, bp1: Predictor, es1: seq<Event>, bp2: Predictor, es2: seq<Event>)
    requires EmptyBtb(bp1) && EmptyBtb(bp2)
    requires Good(Ref(m, StartArch(mem)), ExecIndex(RunSys(m, StartSys(bp1, mem), es1).pipe))
    requires Good(Ref(m, StartArch(mem)), ExecIndex(RunSys(m, StartSys(bp2, mem), es2).pipe))
    requires !RunSys(m, StartSys(bp1, mem), es1).pipe.run && !RunSys(m, StartSys(bp2, mem), es2).pipe.run
    ensures var s1 := RunSys(m, StartSys(bp1, mem), es1);
            var s2 := RunSys(m, StartSys(bp2, mem), es2);
            && s1.pipe.pc == s2.pipe.pc && s1.pipe.regs == s2.pipe.regs && s1.pipe.retired == s2.pipe.retired
            && s1.mem == s2.mem && s1.log == s2.log && s1.issued == s2.issued
            && (HiLoSettled(m, Ref(m, StartArch(mem)).At(s1.pipe.retired)) ==>
                  s1.pipe.hi == s2.pipe.hi && s1.pipe.lo == s2.pipe.lo)
  {
    hide Inv, RunSys, Good, StartSys, AccessLog, Exits, Run, Executed;
    var r := Ref(m, StartArch(mem));
    WholeRun(m, bp1, mem, es1);
    WholeRun(m, bp2, mem, es2);
    StopsAtFirstExit(m, bp1, mem, es1);
    StopsAtFirstExit(m, bp2, mem, es2);
    var i := RunSys(m, StartSys(bp1, mem), es1).pipe.retired;
    var j := RunSys(m, StartSys(bp2, mem), es2).pipe.retired;
    FirstExitIsUnique(r, i, j);
  }

  /** Only the instructions that write HI or LO can leave them unsettled. */
  lemma OthersSettle(m: Machine, t: Arch)
    requires !WritesHiLo(m.text(t.pc))
    ensures HiLoSettled(m, t)
  {
    NotHiLoKeeps(m, t);
    hide Executed;
  }

  // --------------------------------------------------------- step refinement

  /** The request of an access that has not been answered: the one it holds, or
      the one it is about to make, with its store value from `regs`. */
  function PendingPacket(op: Op, regs: Regs): Option<Packet> {
    if op.memTried then op.memPkt
    else if IsStore(op) && op.src2 >= 0 then DataPacket(op.(memValue := regs[op.src2]))
    else DataPacket(op)
  }

  /** The completion of the op in the memory stage on registers `regs`. */
  function CompletedMem(op: Op, regs: Regs, mem: Mem): (Regs, Mem) {
    if !op.isMem || Answered(op) then (Retire(regs, op), mem)
    else match PendingPacket(op, regs)
      case None => (Retire(regs, op), mem)
      case Some(pkt) =>
        (if IsLoad(op) then Retire(regs, LoadReply(op, ServedFull(mem, pkt))) else Retire(regs, op), After(mem, pkt))
  }

  function ServedFull(mem: Mem, pkt: Packet): (q: Packet)
    ensures |q.data| == q.size
  {
    pkt.(data := ReadBytes(mem, pkt.addr, pkt.size))
  }

  /** The architectural state that the pipeline stands for: the ops in write
      back and memory are completed, the ones before execute are dropped. */
  function Abs(p: Pipe, mem: Mem): Arch {
    var regs1 := if p.wbOp.Some? then Retire(p.regs, p.wbOp.value) else p.regs;
    var (regs2, mem2) := if p.memOp.Some? then CompletedMem(p.memOp.value, regs1, mem) else (regs1, mem);
    Arch(regs2, p.hi, p.lo, Head(p), mem2)
  }

  lemma CompletionIsStep(text: Text, t: Arch, op: Op, mem: Mem, reqs: seq<Packet>)
    requires OpInMemory(text, t, op, mem, reqs) && t.regs[0] == 0
    ensures CompletedMem(op, t.regs, mem) == (Step(text, t).regs, Step(text, t).mem)
  {
    hide Step, Exits, Supported, Opcode, Rs, Rt, Imm, AccessAddr, Extract, WordOf, After, AccessOf, ReadBytes;
    if op.isMem && !Answered(op) {
      PendingIsGood(text, t, op, mem, reqs);
      var pkt := PendingPacket(op, t.regs).value;
      if IsLoad(op) {
        LoadCompletes(text, t, op, pkt);
      } else {
        StoreCompletes(text, t, op, pkt);
      }
    }
    hide GoodAccess, AccessOp, DataPacket;
  }

  lemma PendingIsGood(text: Text, t: Arch, op: Op, mem: Mem, reqs: seq<Packet>)
    requires OpInMemory(text, t, op, mem, reqs) && t.regs[0] == 0 && op.isMem && !Answered(op)
    ensures mem == t.mem && PendingPacket(op, t.regs).Some? && GoodAccess(text, t, PendingPacket(op, t.regs).value)
    ensures IsLoad(op) || IsStore(op)
    ensures AccessOp(text, t, op)
  {
    hide Step, Exits, Supported, Opcode, Rs, Rt, Imm, AccessAddr, AccessOf, DataPacket, GoodAccess, Completed;
    if !op.memTried {
      if IsLoad(op) {
        LoadIsGood(text, t, op);
      } else {
        StoreIsGood(text, t, op.(memValue := t.regs[op.src2]));
      }
    }
  }

  /** The op behind an exit syscall, if it has got as far as the memory stage, is
      a supported instruction. */
  predicate BehindExitOk(r: Ref, p: Pipe) {
    Draining(p) && p.memOp.Some? ==> Supported(r.m.text, r.At(MemIndex(p)))
  }

  /** The completion abstraction is the state of the run after the executed
      instructions. */
  lemma AbsIsRun(r: Ref, p: Pipe, mem: Mem, reqs: seq<Packet>)
    requires PipeOk(r, p, mem, reqs) && p.run && BehindExitOk(r, p)
    ensures Abs(p, mem) == r.At(ExecIndex(p))
  {
    hide Run, Step, Exits, Completed, FrontOk, OpInMemory, CompletedMem, Supported, Executed, OnPath, Head;
    assert OnPath(r.m.text, r.At(ExecIndex(p)), p);
    HeadOnPath(r.m.text, r.At(ExecIndex(p)), p);
    NextAt(r, p.retired);
    RegsAtMem(r, p);
    if p.memOp.Some? {
      CompletionIsStep(r.m.text, r.At(MemIndex(p)), p.memOp.value, mem, reqs);
      NextAt(r, MemIndex(p));
    }
  }

  lemma HeadOnPath(text: Text, t: Arch, p: Pipe)
    requires OnPath(text, t, p) && !p.recover
    ensures Head(p) == t.pc && p.hi == t.hi && p.lo == t.lo
  {
    hide Linked;
  }

  lemma RegsAtMem(r: Ref, p: Pipe)
    requires WbOk(r, p)
    ensures var regs := if p.wbOp.Some? then Retire(p.regs, p.wbOp.value) else p.regs;
            r.At(MemIndex(p)).regs == regs && regs[0] == 0
  {
    hide Run, Step, Exits;
    NextAt(r, p.retired);
  }

  /** Retiring the exit syscall changes nothing that the pipeline stands for but
      the pc, which goes back to the syscall. */
  lemma HaltIsStutter(m: Machine, p: Pipe, mem: Mem, acceptData: bool, acceptInst: bool)
    requires p.run && Draining(p)
    ensures var q := Cycle(m, p, acceptData, acceptInst).pipe;
            !q.run && q.pc == p.wbOp.value.pc && ExecIndex(q) == ExecIndex(p)
            && Abs(q, mem) == Abs(p, mem).(pc := Abs(q, mem).pc)
  {
    hide Retire, CompletedMem;
  }

  /** Step refinement. Any event - a clock cycle with any answers from the
      memories, or a reply - leaves the architectural state that the pipeline
      stands for as it is, or advances it by exactly one instruction; the event
      that stops the run leaves it as it is but for the pc. */
  lemma StepRefinement(r: Ref, s: Sys, e: Event)
    requires Inv(r, s) && Good(r, ExecIndex(Next(r.m, s, e).pipe)) && s.pipe.run
    requires BehindExitOk(r, s.pipe) && BehindExitOk(r, Next(r.m, s, e).pipe)
    ensures var q := Next(r.m, s, e);
            var a := Abs(s.pipe, s.mem);
            var b := Abs(q.pipe, q.mem);
            if !q.pipe.run then b == a.(pc := b.pc) && q.pipe.pc == r.At(s.pipe.retired).pc
            else if ExecIndex(q.pipe) == ExecIndex(s.pipe) then b == a
            else b == Step(r.m.text, a)
  {
    hide Run, Step, Next, Abs, Good, Draining, PipeOk, ExecIndex, RefLog, AccessLog, BehindExitOk, Inv;
    var q := Next(r.m, s, e);
    EventKeeps(r, s, e);
    InvPipe(r, s);
    InvPipe(r, q);
    AbsIsRun(r, s.pipe, s.mem, s.dataReqs);
    if q.pipe.run {
      AbsIsRun(r, q.pipe, q.mem, q.dataReqs);
      NextAt(r, ExecIndex(s.pipe));
    } else {
      StopIsHalt(r, s, e);
    }
  }

  lemma InvPipe(r: Ref, s: Sys)
    requires Inv(r, s)
    ensures PipeOk(r, s.pipe, s.mem, s.dataReqs)
  {
    hide PipeOk, RefLog, AccessLog;
  }

  lemma StopIsHalt(r: Ref, s: Sys, e: Event)
    requires Inv(r, s) && s.pipe.run && !Next(r.m, s, e).pipe.run
    ensures var q := Next(r.m, s, e);
            Abs(q.pipe, q.mem) == Abs(s.pipe, s.mem).(pc := Abs(q.pipe, q.mem).pc)
                && q.pipe.pc == r.At(s.pipe.retired).pc
  {
    hide Cycle, RecvResp, Abs, Run, Exits, Step, RefLog, AccessLog, FrontOk, OnPath, OpInMemory, Executed;
    match e
    case Clock(acceptData, acceptInst) =>
      CycleRetires(r.m, s.pipe, acceptData, acceptInst);
      HaltIsStutter(r.m, s.pipe, s.mem, acceptData, acceptInst);
    case AnswerData(i) =>
      if i < |s.dataReqs| {
        ServedSize(s.mem, s.dataReqs[i]);
        ReplyRuns(s.pipe, Served(s.mem, s.dataReqs[i]));
      }
    case AnswerFetch(j) =>
      if j < |s.fetches| {
        FetchedSize(r.m.text, s.fetches[j]);
        ReplyRuns(s.pipe, Fetched(r.m.text, s.fetches[j]));
      }
  }

  lemma ReplyRuns(p: Pipe, pkt: Packet)
    requires !pkt.isWrite ==> |pkt.data| == pkt.size
    ensures RecvResp(p, pkt).run == p.run
  {
    hide LoadReply, WordOf;
  }
}
