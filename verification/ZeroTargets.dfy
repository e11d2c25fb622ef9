/** Control transfers to address 0, the mark that the pipeline puts on a branch
    which decode has resolved: exactly when they go wrong, and a run in which one
    does. */
module ZeroTargets {
  import opened Words
  import opened Isa
  import opened Packets
  import opened PredictorSpec
  import opened PipeSpec
  import opened IsaAgreement
  import opened PipeSystem
  import opened PipeInvariant
  import opened PipeStages
  import opened PipeCycle
  import opened PipeRuns

  /** The address that the control transfer at `t` names, whether taken or not. */
  function NamedTarget(text: Text, t: Arch): Word {
    var w := text(t.pc);
    match Decode(w)
    case JumpReg(rs) => Read(t.regs, rs)
    case JumpRegLink(rs, _) => Read(t.regs, rs)
    case Jump(_, index) => JumpTarget(t.pc, index)
    case _ => BranchTarget(t.pc, SignExtend16(Imm(w)))
  }

  /** A control transfer that meets every condition but the one on its target. */
  predicate TransferOk(text: Text, t: Arch) {
    IsControl(text(t.pc)) && (NoResult(text(t.pc)) ==> Rd(text(t.pc)) == 0)
  }

  lemma NonZeroIsSupported(text: Text, t: Arch)
    requires TransferOk(text, t) && NamedTarget(text, t) != 0
    ensures Supported(text, t)
  {
    hide Opcode, Rs, Rt, Rd, Sa, Funct, Imm, Index, SignExtend16, JumpTarget, BranchTarget;
  }

  lemma ZeroIsUnresolved(m: Machine, t: Arch)
    requires TransferOk(m.text, t) && NamedTarget(m.text, t) == 0 && t.regs[0] == 0
    ensures Executed(m, t).op.branchDest == 0
  {
    hide Opcode, Rs, Rt, Rd, Sa, Funct, Imm, Index, SignExtend16, Wrap, SpecialValue, SpecialHiLo, BitwiseWord;
  }

  lemma TransferHiLo(m: Machine, t: Arch)
    requires TransferOk(m.text, t)
    ensures Executed(m, t).hi == Step(m.text, t).hi && Executed(m, t).lo == Step(m.text, t).lo
  {
    ControlMovesNothing(m.text, t);
    NotHiLoKeeps(m, t);
    hide Executed, Step;
  }

  lemma ControlMovesNothing(text: Text, t: Arch)
    requires IsControl(text(t.pc))
    ensures !WritesHiLo(text(t.pc)) && Step(text, t).hi == t.hi && Step(text, t).lo == t.lo
  {
    hide Opcode, Rs, Rt, Rd, Sa, Funct, Imm, Index, SignExtend16, Wrap, JumpTarget, BranchTarget;
  }

  /** An instruction executes: the pipeline is on the path of the run behind it
      exactly when the address it names is not 0, or what has been fetched behind
      it happens to be the right successor. */
  lemma ZeroTargetIff(r: Ref, p: Pipe)
    requires WbOk(r, p) && p.memOp.None? && FrontOk(r.m.text, p) && p.executeOp.Some? && !p.recover && PathOk(r, p)
    requires TransferOk(r.m.text, r.At(ExecIndex(p)))
    ensures var t := r.At(ExecIndex(p));
            PathOk(r, ExecuteStage(r.m, p)) <==> NamedTarget(r.m.text, t) != 0 || NextPc(p) == Step(r.m.text, t).pc
  {
    var t := r.At(ExecIndex(p));
    var e := Executed(r.m, t);
    var p1 := p.(hi := e.hi, lo := e.lo);
    hide *;
    ExecuteIsStep(r, p);
    ExecuteCounts(r, p);
    TransferHiLo(r.m, t);
    ZeroRegister(r, p);
    assert Linked(r.m.text, p1) by { LinkedFrame(r, p, p1); }
    NextAt(r, ExecIndex(p));
    PathIs(r, ExecuteStage(r.m, p), ExecIndex(p) + 1);
    if NamedTarget(r.m.text, t) != 0 {
      NonZeroIsSupported(r.m.text, t);
      ResolveStays(r.m, t, p1);
    } else {
      ZeroIsUnresolved(r.m, t);
      ResolvedStays(p1, e.op);
      LeftWhereItIs(r.m.text, Step(r.m.text, t), p1, e.op);
      SameNext(p, p1);
    }
  }

  lemma SameNext(p: Pipe, q: Pipe)
    requires q == p.(hi := q.hi, lo := q.lo)
    ensures NextPc(q) == NextPc(p) && q.recover == p.recover
  {
  }

  lemma ZeroRegister(r: Ref, p: Pipe)
    requires WbOk(r, p) && p.memOp.None?
    ensures r.At(ExecIndex(p)).regs[0] == 0
  {
    hide Run, Retire;
    RegsAtMem(r, p);
  }

  lemma PathIs(r: Ref, p: Pipe, n: nat)
    requires ExecIndex(p) == n
    ensures PathOk(r, p) <==> OnPath(r.m.text, r.At(n), p)
  {
  }

  lemma LeftWhereItIs(text: Text, next: Arch, p: Pipe, op: Op)
    requires !p.recover && Linked(text, p) && p.hi == next.hi && p.lo == next.lo
    ensures OnPath(text, next, p.(executeOp := None, memOp := Some(op))) <==> NextPc(p) == next.pc
  {
    hide Link;
  }

  // A run that leaves the path: J to address 0 as the first instruction.

  predicate JumpsToZero(text: Text) {
    text(0x0040_0000) == 0x0800_0000 && text(0x0040_0004) == 0
  }

  /** The pipeline of this run with the given ops in flight. */
  function InFlight(bp: Predictor, fetch: Option<Op>, decode: Option<Op>, execute: Option<Op>, mem: Option<Op>,
                    wb: Option<Op>, pc: Word, retired: nat): Pipe {
    Start(bp).(fetchOp := fetch, decodeOp := decode, executeOp := execute, memOp := mem, wbOp := wb, pc := pc,
        retired := retired)
  }

  lemma EmptyPredicts(bp: Predictor, pc: Word)
    requires EmptyBtb(bp)
    ensures PredictedPc(bp, pc) == Wrap(pc + 4)
  {
  }

  lemma FieldsOf()
    ensures Opcode(0x0800_0000) == 2 && Index(0x0800_0000) == 0 && Funct(0x0800_0000) == 0
    ensures Opcode(0) == 0 && Funct(0) == 0 && Rs(0) == 0 && Rt(0) == 0 && Rd(0) == 0 && Sa(0) == 0
  {
  }

  lemma TargetIsZero()
    ensures JumpTarget(0x0040_0000, 0) == 0
  {
  }

  lemma JumpIs()
    ensures Decode(0x0800_0000) == Jump(false, 0) && JumpTarget(0x0040_0000, 0) == 0
  {
    hide *;
    FieldsOf();
    TargetIsZero();
    DecodesJump(0x0800_0000);
  }

  lemma DecodesJump(w: Word)
    requires Opcode(w) == 2
    ensures Decode(w) == Jump(false, Index(w))
  {
    hide Opcode, Rs, Rt, Rd, Sa, Funct, Imm, Index, SignExtend16;
  }

  /** The instruction set goes from the jump to address 0. */
  lemma JumpLeads(text: Text, mem: Mem)
    requires JumpsToZero(text)
    ensures var t := StartArch(mem);
            Step(text, t).pc == 0 && TransferOk(text, t) && NamedTarget(text, t) == 0
  {
    JumpIs();
    FieldsOf();
    hide Decode, JumpTarget, Opcode, Rs, Rt, Rd, Sa, Funct, Imm, Index, SignExtend16, BranchTarget, Wrap;
  }

  lemma JumpDecoded(text: Text)
    requires JumpsToZero(text)
    ensures var op := DecodedOp(text, 0x0040_0000);
            && op == DecodeFields(FetchedOp(text, 0x0040_0000)) && op.branchDest == 0 && op.pc == 0x0040_0000
            && op.opcode == OP_J && op.src1 == -1 && op.src2 == -1 && op.dst == -1 && !op.isMem && op.isBranch
               && op.stall == 0
            && op.instruction == 0x0800_0000
  {
    FieldsOf();
    assert Wrap(0x0040_0000 / 0x1000_0000 * 0x1000_0000 + 0) == 0;
    hide Opcode, Rs, Rt, Rd, Sa, Funct, Imm, Index, SignExtend16, Wrap;
  }

  lemma NopDecoded(text: Text)
    requires JumpsToZero(text)
    ensures var op := DecodedOp(text, 0x0040_0004);
            && op == DecodeFields(FetchedOp(text, 0x0040_0004)) && !op.isBranch && op.pc == 0x0040_0004
            && op.opcode == OP_SPECIAL && op.subop == 0 && op.src1 == 0 && op.src2 == 0 && op.dst == 0
            && !op.isMem && op.stall == 0
  {
    FieldsOf();
    hide Opcode, Rs, Rt, Rd, Sa, Funct, Imm, Index, SignExtend16, Wrap;
  }

  const JUMP_PC: Word := 0x0040_0000
  const NOP_PC: Word := 0x0040_0004

  /** The jump leaves execute with fetch where it is. */
  lemma JumpExecutes(m: Machine, p: Pipe)
    requires JumpsToZero(m.text) && p.executeOp == Some(DecodedOp(m.text, JUMP_PC)) && p.memOp.None?
    ensures var q := ExecuteStage(m, p);
            && q == p.(executeOp := None, memOp := q.memOp) && q.memOp.Some?
            && var op := q.memOp.value;
               op.pc == JUMP_PC && !op.isMem && op.dst == -1 && op.opcode == OP_J
  {
    JumpDecoded(m.text);
    hide DecodedOp, FetchedOp, DecodeFields, ImmediateValue, Condition;
  }

  lemma NopExecutes(m: Machine, p: Pipe)
    requires JumpsToZero(m.text) && p.executeOp == Some(DecodedOp(m.text, NOP_PC)) && p.memOp.None? && p.wbOp.Some?
             && p.hi == p.lo == 0
    ensures var q := ExecuteStage(m, p);
            && q == p.(executeOp := None, memOp := q.memOp) && q.memOp.Some?
            && var op := q.memOp.value;
               op.pc == NOP_PC && !op.isMem && op.dst == 0 && op.subop == 0
  {
    NopDecoded(m.text);
    hide DecodedOp, FetchedOp, DecodeFields, ExecOp, ExecuteStage;
    var op := p.executeOp.value.(src1Value := 0, src2Value := 0);
    NopReady(m, p);
    NopResult(m, op);
  }

  lemma NopReady(m: Machine, p: Pipe)
    requires p.executeOp.Some? && p.memOp.None? && p.hi == p.lo == 0
    requires var op := p.executeOp.value;
             op.opcode == OP_SPECIAL && op.subop == 0 && op.src1 == 0 && op.src2 == 0 && op.stall == 0
    ensures var op := p.executeOp.value.(src1Value := 0, src2Value := 0);
            ExecuteStage(m, p) == ExecuteReady(m, p, op) && !WaitsForHiLo(op)
  {
    hide ExecuteReady;
  }

  lemma NopResult(m: Machine, op: Op)
    requires op.opcode == OP_SPECIAL && op.subop == 0
    ensures var x := ExecOp(m, op, 0, 0);
            && x.hi == 0 && x.lo == 0 && x.op.isBranch == op.isBranch && x.op.pc == op.pc && x.op.isMem == op.isMem
            && x.op.dst == op.dst && x.op.subop == 0
  {
    hide SpecialValue;
  }

  /** The state after the two instructions have been fetched, and after each of
      the next cycles. */
  predicate BothFetched(m: Machine, s: Sys, bp: Predictor) {
    var nop, jump := FetchedOp(m.text, NOP_PC), FetchedOp(m.text, JUMP_PC);
    s.pipe == InFlight(bp, Some(nop), Some(jump), None, None, None, 0x0040_0008, 0) && s.log == []
  }

  predicate JumpInExecute(m: Machine, s: Sys, bp: Predictor) {
    var nop, jump := FetchedOp(m.text, NOP_PC), DecodedOp(m.text, JUMP_PC);
    && s.pipe == InFlight(bp, s.pipe.fetchOp, Some(nop), Some(jump), None, None, 0x0040_000C, 0)
    && s.pipe.fetchOp.Some? && !s.pipe.fetchOp.value.isFetchIssued && s.log == []
  }

  predicate JumpInMemory(m: Machine, s: Sys, bp: Predictor) {
    && s.pipe == InFlight(bp, s.pipe.fetchOp, None, Some(DecodedOp(m.text, NOP_PC)), s.pipe.memOp, None, 0x0040_000C, 0)
    && s.pipe.fetchOp.Some? && !s.pipe.fetchOp.value.isFetchIssued && s.log == []
    && s.pipe.memOp.Some?
    && var op := s.pipe.memOp.value;
       op.pc == JUMP_PC && !op.isMem && op.dst == -1 && op.opcode == OP_J
  }

  predicate NopInMemory(m: Machine, s: Sys, bp: Predictor) {
    && s.pipe == InFlight(bp, s.pipe.fetchOp, None, None, s.pipe.memOp, s.pipe.wbOp, 0x0040_000C, 0)
    && s.pipe.fetchOp.Some? && !s.pipe.fetchOp.value.isFetchIssued && s.log == []
    && s.pipe.wbOp.Some? && s.pipe.wbOp.value.pc == JUMP_PC && s.pipe.wbOp.value.opcode == OP_J
       && s.pipe.wbOp.value.dst == -1
    && s.pipe.memOp.Some?
    && var op := s.pipe.memOp.value;
       op.pc == NOP_PC && !op.isMem && op.dst == 0 && op.subop == 0
  }

  predicate NopInWriteBack(m: Machine, s: Sys) {
    && s.pipe.run && s.pipe.retired == 1 && |s.log| == 1 && s.log[0].pc == JUMP_PC
    && s.pipe.wbOp.Some? && s.pipe.wbOp.value.pc == NOP_PC && s.pipe.wbOp.value.subop == 0
  }

  lemma CycleStages(m: Machine, p: Pipe, acceptInst: bool)
    requires WbStage(p).run
    ensures var x := DecodeStage(ExecuteStage(m, MemStage(WbStage(p), true).0));
            Cycle(m, p, true, acceptInst).pipe == Recovered(FetchStage(x, acceptInst).0)
  {
    hide WbStage, MemStage, ExecuteStage, DecodeStage, FetchStage, Recovered;
  }

  lemma FetchedBoth(m: Machine, bp: Predictor, mem: Mem)
    requires EmptyBtb(bp)
    ensures var es := [Clock(true, true)] + [AnswerFetch(0)] + [Clock(true, true)] + [AnswerFetch(0)];
            BothFetched(m, RunSys(m, StartSys(bp, mem), es), bp)
  {
    var s0 := StartSys(bp, mem);
    assert s0.pipe == Start(bp) && s0.fetches == [] && s0.log == [];
    EmptyPredicts(bp, JUMP_PC);
    EmptyPredicts(bp, NOP_PC);
    FetchOne(m, s0, bp);
    FetchTwo(m, Next(m, Next(m, s0, Clock(true, true)), AnswerFetch(0)), bp);
    RunFour(m, s0);
    hide *;
  }

  lemma RunFour(m: Machine, s0: Sys)
    ensures RunSys(m, s0, [Clock(true, true)] + [AnswerFetch(0)] + [Clock(true, true)] + [AnswerFetch(0)])
         == Next(m, Next(m, Next(m, Next(m, s0, Clock(true, true)), AnswerFetch(0)), Clock(true, true)), AnswerFetch(0))
  {
    hide Next;
    var e1 := [Clock(true, true)];
    assert [] + e1 == e1 && RunSys(m, s0, []) == s0;
    RunOneMore(m, s0, [], Clock(true, true));
    RunOneMore(m, s0, e1, AnswerFetch(0));
    RunOneMore(m, s0, e1 + [AnswerFetch(0)], Clock(true, true));
    RunOneMore(m, s0, e1 + [AnswerFetch(0)] + [Clock(true, true)], AnswerFetch(0));
    hide RunSys;
  }

  predicate JumpFetched(m: Machine, s: Sys, bp: Predictor) {
    s.pipe == InFlight(bp, Some(FetchedOp(m.text, JUMP_PC)), None, None, None, None, NOP_PC, 0) && s.log == []
        && s.fetches == []
  }

  lemma FetchOne(m: Machine, s0: Sys, bp: Predictor)
    requires s0.pipe == Start(bp) && s0.fetches == [] && s0.log == [] && PredictedPc(bp, JUMP_PC) == NOP_PC
    ensures JumpFetched(m, Next(m, Next(m, s0, Clock(true, true)), AnswerFetch(0)), bp)
  {
    hide PredictedPc, WordOf, ByteOf;
    BytesJoin(m.text(JUMP_PC));
  }

  lemma FetchTwo(m: Machine, s: Sys, bp: Predictor)
    requires JumpFetched(m, s, bp) && PredictedPc(bp, NOP_PC) == 0x0040_0008
    ensures BothFetched(m, Next(m, Next(m, s, Clock(true, true)), AnswerFetch(0)), bp)
  {
    hide PredictedPc, WordOf, ByteOf;
    BytesJoin(m.text(NOP_PC));
  }

  lemma DecodeJump(m: Machine, s: Sys, bp: Predictor)
    requires JumpsToZero(m.text) && BothFetched(m, s, bp) && PredictedPc(bp, 0x0040_0008) == 0x0040_000C
    ensures JumpInExecute(m, Next(m, s, Clock(true, false)), bp)
  {
    JumpDecoded(m.text);
    CycleStages(m, s.pipe, false);
    hide DecodedOp, FetchedOp, DecodeFields, PredictedPc, Cycle;
  }

  lemma ExecuteJump(m: Machine, s: Sys, bp: Predictor)
    requires JumpsToZero(m.text) && JumpInExecute(m, s, bp)
    ensures JumpInMemory(m, Next(m, s, Clock(true, false)), bp)
  {
    JumpExecutes(m, s.pipe);
    NopDecoded(m.text);
    CycleStages(m, s.pipe, false);
    hide DecodedOp, FetchedOp, DecodeFields, PredictedPc, Cycle, ExecuteStage;
  }

  lemma ExecuteNop(m: Machine, s: Sys, bp: Predictor)
    requires JumpsToZero(m.text) && JumpInMemory(m, s, bp)
    ensures NopInMemory(m, Next(m, s, Clock(true, false)), bp)
  {
    NopExecutes(m, s.pipe.(memOp := None, wbOp := s.pipe.memOp));
    CycleStages(m, s.pipe, false);
    hide DecodedOp, FetchedOp, DecodeFields, PredictedPc, Cycle, ExecuteStage;
  }

  lemma RetireJump(m: Machine, s: Sys, bp: Predictor)
    requires NopInMemory(m, s, bp)
    ensures NopInWriteBack(m, Next(m, s, Clock(true, false)))
  {
    CycleStages(m, s.pipe, false);
    hide PredictedPc, Cycle;
  }

  lemma RetireNop(m: Machine, s: Sys)
    requires NopInWriteBack(m, s)
    ensures var q := Next(m, s, Clock(true, false));
            |q.log| == 2 && q.log[1].pc == NOP_PC
  {
    hide Cycle;
  }

  /** Two instruction words, then cycles without further fetches. */
  function JumpRun(): seq<Event> {
    [Clock(true, true)] + [AnswerFetch(0)] + [Clock(true, true)] + [AnswerFetch(0)]
    + [Clock(true, false)] + [Clock(true, false)] + [Clock(true, false)] + [Clock(true, false)] + [Clock(true, false)]
  }

  lemma FiveCycles(m: Machine, s: Sys, bp: Predictor)
    requires EmptyBtb(bp) && JumpsToZero(m.text) && BothFetched(m, s, bp)
    ensures var e := Clock(true, false);
            var log := Next(m, Next(m, Next(m, Next(m, Next(m, s, e), e), e), e), e).log;
            |log| == 2 && log[1].pc == NOP_PC
  {
    EmptyPredicts(bp, 0x0040_0008);
    hide Next, BothFetched, JumpInExecute, JumpInMemory, NopInMemory, NopInWriteBack, EmptyBtb, PredictedPc,
         JumpsToZero;
    var e := Clock(true, false);
    DecodeJump(m, s, bp);
    ExecuteJump(m, Next(m, s, e), bp);
    ExecuteNop(m, Next(m, Next(m, s, e), e), bp);
    RetireJump(m, Next(m, Next(m, Next(m, s, e), e), e), bp);
    RetireNop(m, Next(m, Next(m, Next(m, Next(m, s, e), e), e), e));
  }

  lemma RunFive(m: Machine, s0: Sys, es: seq<Event>, e: Event)
    ensures RunSys(m, s0, es + [e] + [e] + [e] + [e] + [e])
            == Next(m, Next(m, Next(m, Next(m, Next(m, RunSys(m, s0, es), e), e), e), e), e)
  {
    hide RunSys, Next;
    RunOneMore(m, s0, es, e);
    RunOneMore(m, s0, es + [e], e);
    RunOneMore(m, s0, es + [e] + [e], e);
    RunOneMore(m, s0, es + [e] + [e] + [e], e);
    RunOneMore(m, s0, es + [e] + [e] + [e] + [e], e);
  }

  /** With J to address 0 as its first instruction the program leaves the path:
      the pipeline retires the word behind the jump where the instruction set
      goes to address 0. */
  lemma ZeroTargetFails(m: Machine, bp: Predictor, mem: Mem)
    requires EmptyBtb(bp) && JumpsToZero(m.text)
    ensures var r := Ref(m, StartArch(mem));
            var log := RunSys(m, StartSys(bp, mem), JumpRun()).log;
            && TransferOk(m.text, r.At(0)) && NamedTarget(m.text, r.At(0)) == 0
            && |log| == 2 && log[1].pc == 0x0040_0004 && r.At(1).pc == 0
  {
    assert Ref(m, StartArch(mem)).At(0) == StartArch(mem);
    hide *;
    JumpLeads(m.text, mem);
    FetchedBoth(m, bp, mem);
    NextAt(Ref(m, StartArch(mem)), 0);
    var es := [Clock(true, true)] + [AnswerFetch(0)] + [Clock(true, true)] + [AnswerFetch(0)];
    RunFive(m, StartSys(bp, mem), es, Clock(true, false));
    FiveCycles(m, RunSys(m, StartSys(bp, mem), es), bp);
    JumpRunIs();
  }

  lemma JumpRunIs()
    ensures var e := Clock(true, false);
            var es := [Clock(true, true)] + [AnswerFetch(0)] + [Clock(true, true)] + [AnswerFetch(0)];
            JumpRun() == es + [e] + [e] + [e] + [e] + [e]
  {
  }
}
