/** One clock cycle keeps the invariant. */
module PipeCycle {
  import opened Words
  import opened Isa
  import opened Packets
  import opened PredictorSpec
  import opened PipeSpec
  import opened IsaAgreement
  import opened PipeSystem
  import opened PipeInvariant
  import opened PipeStages

  // ------------------------------------------------------------------- frames

  /** The stages after execute leave the back of the pipeline alone. */
  predicate SameBack(p: Pipe, q: Pipe) {
    && q.regs == p.regs && q.hi == p.hi && q.lo == p.lo && q.retired == p.retired && q.run == p.run
    && q.wbOp == p.wbOp && q.memOp == p.memOp
  }

  lemma RedirectSameBack(p: Pipe, dest: Word)
    ensures SameBack(p, Redirect(p, dest))
  {
  }

  lemma DecodeSameBack(p: Pipe)
    ensures SameBack(p, DecodeStage(p))
  {
    hide DecodeFields, Redirect, PopRas, PushRas, Update;
    if p.executeOp.None? && p.decodeOp.Some? {
      var op := DecodeFields(p.decodeOp.value);
      var s1 := p.(decodeOp := None);
      var s2 := if op.opcode == OP_JAL then s1.(bp := PushRas(s1.bp, Wrap(op.pc + 4))) else s1;
      RedirectSameBack(s2, op.branchDest);
      var (predicted, bp) := PopRas(s2.bp);
      RedirectSameBack(s2.(bp := bp), predicted);
    }
  }

  lemma FetchSameBack(p: Pipe, accept: bool)
    ensures SameBack(p, FetchStage(p, accept).0)
  {
    hide PredictedPc;
  }

  lemma RecoveredSameBack(p: Pipe)
    ensures SameBack(p, Recovered(p))
  {
  }

  lemma ExecuteFrame(r: Ref, p: Pipe)
    requires WbOk(r, p) && FrontOk(r.m.text, p) && !p.recover
    ensures var q := ExecuteStage(r.m, p);
            && q.regs == p.regs && q.retired == p.retired && q.run == p.run && q.wbOp == p.wbOp
            && (p.memOp.Some? || p.executeOp.None? ==> q == p)
  {
    hide WbOk, FrontOk, ExecuteReady, WithSources, GetRegisterState, DecodedOp;
    if p.memOp.None? && p.executeOp.Some? {
      var op := WithSources(p.executeOp.value, r.At(MemIndex(p)).regs);
      ExecuteReads(r, p);
      ReadyIsResolve(r.m, p, op);
      var e := ExecOp(r.m, op, p.hi, p.lo);
      ResolveFrame(p.(hi := e.hi, lo := e.lo), e.op);
    } else if p.executeOp.Some? {
      ExecuteForm(r, p);
      NoStall(r.m.text, p.executeOp.value.pc);
    }
  }

  /** Decode, fetch and recovery. */
  function Tail(p: Pipe, accept: bool): Pipe {
    Recovered(FetchStage(DecodeStage(p), accept).0)
  }

  lemma TailKeeps(text: Text, p: Pipe, accept: bool)
    requires FrontOk(text, p)
    ensures var q := Tail(p, accept);
            SameBack(p, q) && FrontOk(text, q) && !q.recover
    ensures forall t :: OnPath(text, t, p) ==> OnPath(text, t, Tail(p, accept))
  {
    hide FrontOk, OnPath, DecodeStage, FetchStage;
    var s1 := DecodeStage(p);
    var s2 := FetchStage(s1, accept).0;
    DecodeSameBack(p);
    FetchSameBack(s1, accept);
    RecoveredSameBack(s2);
    DecodeFront(text, p);
    FetchFront(text, s1, accept);
    RecoveredFront(text, s2);
    forall t | OnPath(text, t, p) ensures OnPath(text, t, Recovered(s2)) {
      DecodePath(text, t, p);
      FetchPath(text, t, s1, accept);
      RecoveredPath(text, t, s2);
    }
  }

  // -------------------------------------------------------------------- cycle

  /** The next instruction of the run is supported whenever one executes and no
      exit syscall is on its way out. */
  lemma NextIsSupported(r: Ref, p: Pipe)
    requires WbOk(r, p) && !Draining(p) && p.memOp.None? && Good(r, ExecIndex(p) + 1)
    ensures Supported(r.m.text, r.At(ExecIndex(p)))
  {
    hide Run, Supported, Exits, Step;
    var n := ExecIndex(p);
    assert GoodAt(r, n);
  }

  /** The state just before execute, on the path and with no recovery pending. */
  predicate BeforeExecute(r: Ref, p: Pipe, mem: Mem, reqs: seq<Packet>) {
    && p.run && !p.recover && WbOk(r, p) && MemOk(r, p, mem, reqs) && FrontOk(r.m.text, p) && PathOk(r, p)
    && (p.memOp.Some? ==> p.wbOp.None?)
  }

  lemma ExecuteKeeps(r: Ref, p: Pipe, mem: Mem, reqs: seq<Packet>)
    requires BeforeExecute(r, p, mem, reqs) && !Draining(p)
    requires Good(r, ExecIndex(ExecuteStage(r.m, p)))
    ensures var q := ExecuteStage(r.m, p);
            && WbOk(r, q) && MemOk(r, q, mem, reqs) && FrontOk(r.m.text, q) && PathOk(r, q) && q.run
            && ExecIndex(p) <= ExecIndex(q) <= ExecIndex(p) + 1 && q.wbOp == p.wbOp && q.retired == p.retired
  {
    hide Run, Supported, Exits, Step, WbOk, MemOk, FrontOk, PathOk, ExecuteStage;
    ExecuteFront(r, p);
    ExecuteFrame(r, p);
    if p.memOp.None? && p.executeOp.Some? {
      ExecuteCounts(r, p);
      NextIsSupported(r, p);
      ExecuteAdvances(r, p, mem, reqs);
    }
  }

  lemma ExecuteCounts(r: Ref, p: Pipe)
    requires WbOk(r, p) && p.memOp.None? && FrontOk(r.m.text, p) && p.executeOp.Some?
    requires !p.recover && PathOk(r, p)
    ensures ExecIndex(ExecuteStage(r.m, p)) == ExecIndex(p) + 1
  {
    hide Run, WbOk, FrontOk, PathOk, ExecuteStage, Executed, ResolveBranch;
    ExecuteIsStep(r, p);
    var e := Executed(r.m, r.At(ExecIndex(p)));
    ResolveFrame(p.(hi := e.hi, lo := e.lo), e.op);
  }

  lemma NotHiLoKeeps(m: Machine, t: Arch)
    requires !WritesHiLo(m.text(t.pc))
    ensures Executed(m, t).hi == t.hi && Executed(m, t).lo == t.lo
  {
    hide Opcode, Rs, Rt, Rd, Sa, Imm, Index, SignExtend16, Wrap, SpecialValue, Condition, ImmediateValue, Signed,
         SignedDivision;
  }

  /** Behind an exit syscall at most one more op executes. */
  lemma ExecuteWhileDraining(r: Ref, p: Pipe, mem: Mem, reqs: seq<Packet>)
    requires BeforeExecute(r, p, mem, reqs) && Draining(p)
    ensures var q := ExecuteStage(r.m, p);
            && WbOk(r, q) && DrainOk(r, q, mem, reqs) && FrontOk(r.m.text, q) && q.run && Draining(q)
            && ExecIndex(p) <= ExecIndex(q) <= ExecIndex(p) + 1 && q.wbOp == p.wbOp && q.retired == p.retired
  {
    hide Run, Supported, Exits, Step, WbOk, FrontOk, Linked, ExecuteStage, Executed, ResolveBranch, OpInMemory, OnPath;
    ExecuteFront(r, p);
    ExecuteFrame(r, p);
    WbFrame(r, p, ExecuteStage(r.m, p));
    if p.memOp.None? && p.executeOp.Some? {
      var t := r.At(ExecIndex(p));
      var e := Executed(r.m, t);
      ExecuteIsStep(r, p);
      ResolveFrame(p.(hi := e.hi, lo := e.lo), e.op);
      if Supported(r.m.text, t) { ExecuteAdvances(r, p, mem, reqs); }
    } else {
      HiLoOnPath(r.m.text, r.At(ExecIndex(p)), p);
    }
  }

  lemma HiLoOnPath(text: Text, t: Arch, p: Pipe)
    requires OnPath(text, t, p)
    ensures p.hi == t.hi && p.lo == t.lo
  {
    hide Linked;
  }

  /** The state after write back in a cycle that does not stop the run. */
  lemma BeforeExecuteHolds(r: Ref, p: Pipe, mem: Mem, reqs: seq<Packet>, accept: bool)
    requires p.run && PipeOk(r, p, mem, reqs) && !Draining(p)
    ensures var (q, offered) := MemStage(WbStage(p), accept);
            && BeforeExecute(r, q, mem, Added(reqs, offered, accept))
            && ExecIndex(q) == ExecIndex(p) && q.retired == p.retired + if p.wbOp.Some? then 1 else 0
  {
    hide Run, Completed, OpInMemory, Step, Exits, DecodedOp, FetchedOp, BtbOk, FetchForm, Link, MemStage, MemOk,
         DrainOk, HaltOk;
    WbKeeps(r, p, mem, reqs);
    var s1 := WbStage(p);
    MemKeeps(r, s1, mem, reqs, accept);
    var s2 := MemStage(s1, accept).0;
    assert FrontOk(r.m.text, s2);
    assert PathOk(r, s2);
  }

  /** The cycle that retires an exit syscall stops the run. */
  lemma HaltKeeps(r: Ref, p: Pipe, mem: Mem, reqs: seq<Packet>)
    requires p.run && PipeOk(r, p, mem, reqs) && Draining(p)
    ensures var q := WbStage(p);
            !q.run && PipeOk(r, q, mem, reqs) && q.retired == p.retired + 1 && ExecIndex(q) == ExecIndex(p)
  {
    hide Step, Executed, Supported, OpInMemory, OnPath, FrontOk, PathOk;
    NextAt(r, p.retired);
  }

  /** One cycle of the pipeline, whatever the memories accept: the invariant is
      kept, and the pipeline executes no instruction or the next one of the
      run, and retires the op in write back if there is one. */
  lemma CycleKeeps(r: Ref, p: Pipe, mem: Mem, reqs: seq<Packet>, acceptData: bool, acceptInst: bool)
    requires p.run && PipeOk(r, p, mem, reqs)
    requires Good(r, ExecIndex(Cycle(r.m, p, acceptData, acceptInst).pipe))
    ensures var c := Cycle(r.m, p, acceptData, acceptInst);
            && PipeOk(r, c.pipe, mem, Added(reqs, c.data, acceptData))
            && ExecIndex(p) <= ExecIndex(c.pipe) <= ExecIndex(p) + 1
            && c.pipe.retired == p.retired + (if p.wbOp.Some? then 1 else 0)
            && (c.inst.Some? ==> c.inst.value.ptype == FetchPacket && !c.inst.value.isWrite && c.inst.value.size == 4)
  {
    hide Run, Completed, OpInMemory, Step, Exits, MemStage, MemOk, DrainOk, FrontOk, PathOk, WbOk, DecodeStage,
         ExecuteStage, Supported, HaltOk, WbStage;
    var s1 := WbStage(p);
    if Draining(p) {
      HaltKeeps(r, p, mem, reqs);
    } else {
      assert s1.run by { WbKeeps(r, p, mem, reqs); }
      BeforeExecuteHolds(r, p, mem, reqs, acceptData);
      var (s2, data) := MemStage(s1, acceptData);
      var reqs' := Added(reqs, data, acceptData);
      var s3 := ExecuteStage(r.m, s2);
      var q := Tail(s3, acceptInst);
      assert q == Cycle(r.m, p, acceptData, acceptInst).pipe;
      FrontAfterExecute(r, s2, mem, reqs');
      TailKeeps(r.m.text, s3, acceptInst);
      if Draining(s2) {
        ExecuteWhileDraining(r, s2, mem, reqs');
        DrainFrame(r, s3, q, mem, reqs');
      } else {
        ExecuteKeeps(r, s2, mem, reqs');
        RunFrame(r, s3, q, mem, reqs');
      }
    }
  }

  lemma FrontAfterExecute(r: Ref, p: Pipe, mem: Mem, reqs: seq<Packet>)
    requires BeforeExecute(r, p, mem, reqs)
    ensures FrontOk(r.m.text, ExecuteStage(r.m, p))
  {
    ExecuteFront(r, p);
    hide *;
  }

  lemma DrainFrame(r: Ref, p: Pipe, q: Pipe, mem: Mem, reqs: seq<Packet>)
    requires WbOk(r, p) && DrainOk(r, p, mem, reqs) && Draining(p) && p.run
    requires SameBack(p, q) && FrontOk(r.m.text, q) && !q.recover
    requires forall t :: OnPath(r.m.text, t, p) ==> OnPath(r.m.text, t, q)
    ensures PipeOk(r, q, mem, reqs) && ExecIndex(q) == ExecIndex(p)
  {
    hide Run, Completed, Executed, Exits, OnPath, OpInMemory, Supported;
    WbFrame(r, p, q);
  }

  lemma RunFrame(r: Ref, p: Pipe, q: Pipe, mem: Mem, reqs: seq<Packet>)
    requires WbOk(r, p) && MemOk(r, p, mem, reqs) && PathOk(r, p) && !Draining(p) && p.run
    requires SameBack(p, q) && FrontOk(r.m.text, q) && !q.recover
    requires forall t :: OnPath(r.m.text, t, p) ==> OnPath(r.m.text, t, q)
    ensures PipeOk(r, q, mem, reqs) && ExecIndex(q) == ExecIndex(p)
  {
    hide Run, Completed, OpInMemory, Exits, OnPath;
    WbFrame(r, p, q);
  }

  // ------------------------------------------------------------------ requests

  /** The packets that the memory stage gets accepted extend the sequence of
      data requests of the run. */
  lemma MemIssues(r: Ref, p: Pipe, mem: Mem, reqs: seq<Packet>, accept: bool)
    requires p.run && WbOk(r, p) && p.wbOp.None? && MemOk(r, p, mem, reqs)
    ensures var (q, offered) := MemStage(p, accept);
            var k := if q.memOp.Some? then AccessIndex(q) else MemIndex(q);
            AccessLog(r, k) == AccessLog(r, AccessIndex(p)) + Added([], offered, accept)
  {
    hide WbOk, Run, Answered, MemStage, OpInMemory, AccessOf;
    MemFrame(p, accept);
    if p.memOp.None? {
      MemIdle(p, accept);
    } else if p.memOp.value.isMem && !Answered(p.memOp.value) {
      AccessWaits(r, p, p.memOp.value, mem, reqs, accept);
      WaitIssues(r, p, p.memOp.value, mem, reqs, accept);
    } else {
      AccessLeaves(r, p, p.memOp.value, mem, reqs, accept);
      LeaveIssues(r, p, p.memOp.value, mem, reqs, accept);
    }
  }

  lemma WaitIssues(r: Ref, p: Pipe, op: Op, mem: Mem, reqs: seq<Packet>, accept: bool)
    requires p.run && WbOk(r, p) && p.wbOp.None? && p.memOp == Some(op) && op.isMem && !Answered(op)
    requires OpInMemory(r.m.text, r.At(p.retired), op, mem, reqs)
    ensures var (q, offered) := MemStage(p, accept);
            AccessLog(r, AccessIndex(q)) == AccessLog(r, AccessIndex(p)) + Added([], offered, accept)
  {
    hide WbOk, OpInMemory, MemStage, AccessIndex, AccessOf, Run, Bypassed, DataPacket;
    assert AccessOp(r.m.text, r.At(p.retired), op) by { AccessIsOp(r.m.text, r.At(p.retired), op, mem, reqs); }
    FirstOffer(r, p, op);
    assert op.memTried && op.waitOnPktIssue ==> op.memPkt == AccessOf(r.m.text, r.At(p.retired)) by {
      AccessIsOp(r.m.text, r.At(p.retired), op, mem, reqs);
    }
    WaitOffers(p, op, accept);
  }

  lemma AccessIsOp(text: Text, t: Arch, op: Op, mem: Mem, reqs: seq<Packet>)
    requires OpInMemory(text, t, op, mem, reqs) && op.isMem
    ensures AccessOp(text, t, op)
    ensures op.memTried ==> op.memPkt == AccessOf(text, t)
  {
    hide AccessOp, GoodAccess, AccessOf, Completed, Step;
  }

  lemma WaitOffers(p: Pipe, op: Op, accept: bool)
    requires p.run && p.wbOp.None? && p.memOp == Some(op) && op.isMem && !Answered(op)
    requires Bypassed(p, op).isMem && Bypassed(p, op).memTried == op.memTried
    requires Bypassed(p, op).waitOnPktIssue == op.waitOnPktIssue && Bypassed(p, op).memPkt == op.memPkt
    requires Bypassed(p, op).readyForNextStage == op.readyForNextStage
    ensures var (q, offered) := MemStage(p, accept);
            var waiting := !op.memTried || op.waitOnPktIssue;
            && AccessIndex(p) == p.retired + (if waiting then 0 else 1)
            && AccessIndex(q) == p.retired + (if waiting && !accept then 0 else 1)
            && offered == if !op.memTried then DataPacket(Bypassed(p, op))
                          else if op.waitOnPktIssue then op.memPkt
                          else None
  {
    hide Bypassed, DataPacket, IsExitOp;
  }

  lemma FirstOffer(r: Ref, p: Pipe, op: Op)
    requires WbOk(r, p) && p.wbOp.None? && AccessOp(r.m.text, r.At(p.retired), op)
    ensures var b := Bypassed(p, op);
            && DataPacket(b) == AccessOf(r.m.text, r.At(p.retired)) && AccessOf(r.m.text, r.At(p.retired)).Some?
            && b == op.(memValue := b.memValue, src2Value := b.src2Value)
  {
    FirstTryIsGood(r, p, op);
    BypassKeeps(r.m.text, r.At(p.retired), p, op);
    hide *;
  }

  lemma LeaveIssues(r: Ref, p: Pipe, op: Op, mem: Mem, reqs: seq<Packet>, accept: bool)
    requires p.run && p.wbOp.None? && p.memOp == Some(op) && (!op.isMem || Answered(op))
    requires OpInMemory(r.m.text, r.At(p.retired), op, mem, reqs)
    ensures AccessLog(r, p.retired + 1) == AccessLog(r, AccessIndex(p))
  {
    hide Completed, Step, Exits, Run, GoodAccess, AccessOp, AccessOf;
  }

  /** Execute and the stages before it issue nothing. */
  lemma RestIssuesNothing(r: Ref, p: Pipe, mem: Mem, reqs: seq<Packet>, accept: bool)
    requires BeforeExecute(r, p, mem, reqs)
    ensures AccessIndex(Tail(ExecuteStage(r.m, p), accept)) == if p.memOp.Some? then AccessIndex(p) else MemIndex(p)
  {
    hide Run, WbOk, FrontOk, PathOk, MemOk, ExecuteStage, Tail, IsExitOp, Executed, ResolveBranch;
    var s3 := ExecuteStage(r.m, p);
    FrontAfterExecute(r, p, mem, reqs);
    TailKeeps(r.m.text, s3, accept);
    ExecuteFrame(r, p);
    if p.memOp.None? && p.executeOp.Some? {
      ExecuteIsStep(r, p);
      var t := r.At(ExecIndex(p));
      AccessKinds(r.m, t);
    }
  }

  lemma HaltIssuesNothing(p: Pipe)
    requires p.run && Draining(p)
    ensures AccessIndex(WbStage(p)) == AccessIndex(p)
  {
  }

  lemma WbIssuesNothing(p: Pipe)
    requires p.run && !Draining(p)
    ensures AccessIndex(WbStage(p)) == AccessIndex(p)
  {
  }

  /** In every cycle the accepted data requests are the next ones of the run. */
  lemma CycleIssues(r: Ref, p: Pipe, mem: Mem, reqs: seq<Packet>, acceptData: bool, acceptInst: bool)
    requires p.run && PipeOk(r, p, mem, reqs)
    ensures var c := Cycle(r.m, p, acceptData, acceptInst);
            AccessLog(r, AccessIndex(c.pipe)) == AccessLog(r, AccessIndex(p)) + Added([], c.data, acceptData)
  {
    hide Run, MemStage, MemOk, FrontOk, PathOk, WbOk, DecodeStage, ExecuteStage, HaltOk, WbStage, AccessIndex,
         AccessLog;
    var s1 := WbStage(p);
    if Draining(p) {
      HaltIssuesNothing(p);
      HaltKeeps(r, p, mem, reqs);
    } else {
      WbKeeps(r, p, mem, reqs);
      WbIssuesNothing(p);
      MemIssues(r, s1, mem, reqs, acceptData);
      BeforeExecuteHolds(r, p, mem, reqs, acceptData);
      var (s2, data) := MemStage(s1, acceptData);
      RestIssuesNothing(r, s2, mem, Added(reqs, data, acceptData), acceptInst);
      assert Tail(ExecuteStage(r.m, s2), acceptInst) == Cycle(r.m, p, acceptData, acceptInst).pipe;
    }
  }
}
