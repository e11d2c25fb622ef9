/** Each stage of the pipeline keeps the invariant. */
module PipeStages {
  import opened Words
  import opened Isa
  import opened Packets
  import opened PredictorSpec
  import opened PipeSpec
  import opened IsaAgreement
  import opened PipeSystem
  import opened PipeInvariant

  // ------------------------------------------------------- ops before execute

  lemma UpdateKeepsBtb(text: Text, btb: seq<BtbEntry>, pc: Word, taken: bool, target: Word)
    requires BtbOk(text, btb) && Diverts(text, pc)
    ensures BtbOk(text, UpdateBtb(btb, pc, taken, target))
  {
    hide Diverts;
  }

  /** A decoded branch op sits at a control transfer. */
  lemma BranchOpIsControl(text: Text, pc: Word)
    ensures DecodeFields(FetchedOp(text, pc)).isBranch ==> IsControl(text(pc))
    ensures DecodedOp(text, pc).isBranch ==> IsControl(text(pc))
  {
    hide Opcode, Rs, Rt, Rd, Sa, Funct, Imm, Index, SignExtend16;
  }

  /** What decode makes of a control transfer. */
  lemma DecodedControl(text: Text, pc: Word)
    ensures var op := DecodeFields(FetchedOp(text, pc));
            var w := text(pc);
            var c := Opcode(w);
            && op.opcode == c
            && (op.isBranch <==> ConditionalOpcode(c) || JumpOpcode(c) || RegisterJump(w))
            && op.branchDest == if ConditionalOpcode(c) then BranchTarget(pc, SignExtend16(Imm(w)))
                                else if JumpOpcode(c) then JumpTarget(pc, Index(w)) else 0
  {
    hide Opcode, Rs, Rt, Rd, Sa, Funct, Imm, Index, SignExtend16, ConditionalOpcode, JumpOpcode, RegisterJump,
         LoadOpcode, StoreOpcode, ImmediateOpcode, Links31;
  }

  /** A branch op with a destination, or one that execute will give one, sits at
      an instruction that diverts. */
  lemma BranchOpDiverts(text: Text, pc: Word)
    ensures var op := DecodeFields(FetchedOp(text, pc));
            op.isBranch && (op.branchDest != 0 || op.opcode == OP_SPECIAL) ==> Diverts(text, pc)
    ensures var op := DecodedOp(text, pc);
            op.isBranch && (op.branchDest != 0 || op.opcode == OP_SPECIAL) ==> Diverts(text, pc)
  {
    DecodedControl(text, pc);
    ControlKinds(text(pc));
    hide DecodeFields, FetchedOp, Opcode, Funct, Imm, Index, SignExtend16, BranchTarget, JumpTarget, IsControl;
  }

  lemma ExecOpKeepsBranch(m: Machine, op: Op, hi: Word, lo: Word)
    ensures var r := ExecOp(m, op, hi, lo);
            r.op.isBranch == op.isBranch && r.op.pc == op.pc
                && (op.opcode != OP_SPECIAL ==> r.op.branchDest == op.branchDest)
  {
    hide SpecialValue, SpecialHiLo, SpecialStall, Condition, ImmediateValue, IsJumpReg;
    if op.opcode == OP_SPECIAL {} else {}
  }

  predicate SameBranch(a: Op, b: Op) {
    b.pc == a.pc && b.isBranch == a.isBranch && b.branchDest == a.branchDest && b.opcode == a.opcode
  }

  lemma ExecuteReadyFront(m: Machine, p: Pipe, op: Op)
    requires FrontOk(m.text, p) && p.executeOp.Some?
    requires SameBranch(p.executeOp.value, op) && op.stall == 0
    ensures FrontOk(m.text, ExecuteReady(m, p, op))
  {
    var r := ExecOp(m, op, p.hi, p.lo);
    BranchOpDiverts(m.text, op.pc);
    ExecOpKeepsBranch(m, op, p.hi, p.lo);
    hide ExecOp, DecodedOp, Diverts, UpdateBtb, BtbOk;
    if r.op.isBranch && r.op.branchDest != 0 {
      UpdateKeepsBtb(m.text, p.bp.btb, op.pc, r.op.branchTaken, OpTarget(r.op));
    }
  }

  // ----------------------------------------------------------------- operands

  /** Forwarding is exact: when execute may proceed, every source register reads
      as its value in program order, and no source is ever not ready. */
  lemma OperandExact(r: Ref, p: Pipe, reg: RegId)
    requires WbOk(r, p) && p.memOp.None?
    ensures reg >= 0 ==> GetRegisterState(p, reg) == Ready(Read(r.At(MemIndex(p)).regs, reg))
    ensures reg == -1 ==> GetRegisterState(p, reg) == NotApplicable
  {
    hide Step, Exits;
  }

  /** So the op executes with exactly its program-order operands. */
  lemma ExecuteReads(r: Ref, p: Pipe)
    requires WbOk(r, p) && p.memOp.None? && FrontOk(r.m.text, p) && p.executeOp.Some?
    ensures var op := WithSources(p.executeOp.value, r.At(MemIndex(p)).regs);
            op.stall == 0 && ExecuteStage(r.m, p) == ExecuteReady(r.m, p, op)
  {
    var op := p.executeOp.value;
    OperandExact(r, p, op.src1);
    OperandExact(r, p, op.src2);
    assert op.stall == 0 by { hide DecodedOp, DecodeFields; NoStall(r.m.text, op.pc); }
    hide GetRegisterState, ExecuteReady, DecodedOp, WbOk, BtbOk, Run;
  }

  /** No op ever waits on its own stall count. */
  lemma NoStall(text: Text, pc: Word)
    ensures DecodedOp(text, pc).stall == 0
  {
    hide Opcode, Rs, Rt, Rd, Sa, Funct, Imm, Index, SignExtend16;
  }

  lemma ExecuteFront(r: Ref, p: Pipe)
    requires WbOk(r, p) && FrontOk(r.m.text, p)
    ensures FrontOk(r.m.text, ExecuteStage(r.m, p))
  {
    hide *;
    if p.executeOp.Some? && p.memOp.None? {
      ExecuteReads(r, p);
      var op := WithSources(p.executeOp.value, r.At(MemIndex(p)).regs);
      SourcesKeepBranch(p.executeOp.value, r.At(MemIndex(p)).regs);
      ExecuteReadyFront(r.m, p, op);
    } else {
      ExecuteIdles(r.m, p);
    }
  }

  lemma ExecuteIdles(m: Machine, p: Pipe)
    requires FrontOk(m.text, p) && (p.executeOp.None? || p.memOp.Some?)
    ensures ExecuteStage(m, p) == p
  {
    if p.executeOp.Some? { NoStall(m.text, p.executeOp.value.pc); }
    hide DecodedOp;
  }

  // ------------------------------------------------------------------- decode

  lemma RedirectFront(text: Text, p: Pipe, dest: Word)
    requires FrontOk(text, p) && p.fetchOp.Some?
    ensures FrontOk(text, Redirect(p, dest)) && Redirect(p, dest).bp == p.bp
  {
    hide DecodedOp, BtbOk;
  }

  lemma DecodeBranchFront(text: Text, p: Pipe, op: Op)
    requires FrontOk(text, p) && p.fetchOp.Some? && (op.branchDest != 0 ==> Diverts(text, op.pc))
    ensures FrontOk(text, DecodeBranch(p, op).0)
  {
    hide DecodedOp, BtbOk, Diverts, UpdateBtb, Redirect, FetchForm;
    if op.branchDest != 0 {
      RedirectFront(text, p, op.branchDest);
      UpdateKeepsBtb(text, p.bp.btb, op.pc, true, op.branchDest);
      if op.branchCond {} else {}
    } else {
      var (predicted, bp) := PopRas(p.bp);
      RedirectFront(text, p.(bp := bp), predicted);
    }
  }

  lemma DecodedFront(text: Text, p: Pipe, op: Op)
    requires FrontOk(text, p) && op == DecodedOp(text, op.pc)
    ensures FrontOk(text, p.(executeOp := Some(op)))
  {
    hide DecodedOp, FetchForm, FetchedOp, BtbOk;
  }

  /** The state in which decode looks at a branch. */
  function BeforeBranch(p: Pipe, op: Op): Pipe {
    var s1 := p.(decodeOp := None);
    if op.opcode == OP_JAL then s1.(bp := PushRas(s1.bp, Wrap(op.pc + 4))) else s1
  }

  lemma DecodeIsBranch(p: Pipe)
    requires p.executeOp.None? && p.decodeOp.Some?
    ensures var op := DecodeFields(p.decodeOp.value);
            var s := BeforeBranch(p, op);
            DecodeStage(p) == if op.isBranch then DecodeBranch(s, op).0.(executeOp := Some(DecodeBranch(s, op).1))
                              else s.(executeOp := Some(op))
  {
    hide DecodeFields, DecodeBranch, PushRas;
  }

  lemma BranchIsResolved(p: Pipe, op: Op)
    ensures DecodeBranch(p, op).1 == if op.branchDest != 0 && !op.branchCond then op.(branchDest := 0) else op
  {
    hide Redirect, Update, PopRas, Funct;
  }

  lemma DecodeFront(text: Text, p: Pipe)
    requires FrontOk(text, p)
    ensures FrontOk(text, DecodeStage(p))
  {
    if p.executeOp.None? && p.decodeOp.Some? {
      var op := DecodeFields(p.decodeOp.value);
      var s := BeforeBranch(p, op);
      assert FrontOk(text, s) && p.fetchOp.Some? by { hide DecodeFields, FetchForm, BtbOk; }
      assert p.decodeOp.value == FetchedOp(text, op.pc) by { DecodeKeepsPc(p.decodeOp.value); hide DecodeFields; }
      hide *;
      BranchOpDiverts(text, op.pc);
      DecodeIsBranch(p);
      BranchIsResolved(s, op);
      DecodedIs(text, op.pc);
      BeforeBranchFetch(p, op);
      if op.isBranch {
        DecodeBranchFront(text, s, op);
        DecodedFront(text, DecodeBranch(s, op).0, DecodeBranch(s, op).1);
      } else {
        DecodedFront(text, s, op);
      }
    }
  }

  lemma BeforeBranchFetch(p: Pipe, op: Op)
    ensures BeforeBranch(p, op).fetchOp == p.fetchOp
  {
  }

  lemma DecodedIs(text: Text, pc: Word)
    ensures var op := DecodeFields(FetchedOp(text, pc));
            DecodedOp(text, pc) ==
              if op.isBranch && op.branchDest != 0 && !op.branchCond then op.(branchDest := 0) else op
  {
  }

  lemma DecodeKeepsPc(op: Op)
    ensures DecodeFields(op).pc == op.pc && DecodeFields(op).instruction == op.instruction
  {
  }

  // -------------------------------------------------------------------- fetch

  lemma StartFetchFront(text: Text, p: Pipe, accept: bool)
    requires FrontOk(text, p.(fetchOp := None, decodeOp := None))
    requires p.decodeOp.Some? ==> p.decodeOp.value == FetchedOp(text, p.decodeOp.value.pc)
    ensures FrontOk(text, StartFetch(p, accept).0)
  {
    hide DecodedOp, BtbOk, PredictedPc, FetchedOp;
  }

  lemma FetchFront(text: Text, p: Pipe, accept: bool)
    requires FrontOk(text, p)
    ensures FrontOk(text, FetchStage(p, accept).0)
  {
    hide DecodedOp, BtbOk, StartFetch;
    if p.decodeOp.None? {
      match p.fetchOp
      case None => StartFetchFront(text, p, accept);
      case Some(op) =>
        if op.isFetchIssued && op.readyForNextStage {
          StartFetchFront(text, p.(decodeOp := Some(op), fetchOp := None), accept);
        } else if !op.isFetchIssued {
          assert FetchForm(text, op.(isFetchIssued := accept));
        }
    }
  }

  /** Prediction never redirects an instruction that is no control transfer. */
  lemma PredictionLinks(text: Text, bp: Predictor, pc: Word)
    requires BtbOk(text, bp.btb)
    ensures Link(text, pc, PredictedPc(bp, pc), false)
  {
    hide Diverts, JumpTarget;
    var i := FindPc(bp.btb, pc);
    if i < |bp.btb| {
      assert Matches(bp.btb[i], pc);
    }
  }

  lemma RecoveredFront(text: Text, p: Pipe)
    requires FrontOk(text, p)
    ensures FrontOk(text, Recovered(p))
  {
    hide DecodedOp, BtbOk;
  }

  // ------------------------------------------------------------ the right path

  lemma StartFetchPath(text: Text, t: Arch, p: Pipe, accept: bool)
    requires BtbOk(text, p.bp.btb) && OnPath(text, t, p) && p.fetchOp.None?
    requires p.decodeOp.Some? && !p.recover ==> Link(text, p.decodeOp.value.pc, p.pc, false)
    ensures OnPath(text, t, StartFetch(p, accept).0)
  {
    PredictionLinks(text, p.bp, p.pc);
    hide BtbOk, PredictedPc, Link;
    if p.decodeOp.Some? {} else {}
  }

  lemma FetchPath(text: Text, t: Arch, p: Pipe, accept: bool)
    requires FrontOk(text, p) && OnPath(text, t, p)
    ensures OnPath(text, t, FetchStage(p, accept).0)
  {
    hide DecodedOp, BtbOk, StartFetch, Link, FetchForm;
    if p.decodeOp.None? {
      match p.fetchOp
      case None => StartFetchPath(text, t, p, accept);
      case Some(op) =>
        if op.isFetchIssued && op.readyForNextStage {
          StartFetchPath(text, t, p.(decodeOp := Some(op), fetchOp := None), accept);
        } else if !op.isFetchIssued {
          assert OnPath(text, t, p.(fetchOp := Some(op.(isFetchIssued := accept))));
        }
    }
  }

  lemma RecoveredPath(text: Text, t: Arch, p: Pipe)
    requires OnPath(text, t, p)
    ensures OnPath(text, t, Recovered(p)) && !Recovered(p).recover
  {
    hide Link;
  }

  /** A decoded J or JAL carries its target, and nothing but a branch does. */
  lemma DecodedJump(text: Text, pc: Word)
    ensures var op := DecodeFields(FetchedOp(text, pc));
            JumpOpcode(Opcode(text(pc))) ==>
              op.isBranch && !op.branchCond && op.branchDest == JumpTarget(pc, Index(text(pc)))
    ensures var op := DecodeFields(FetchedOp(text, pc));
            op.isBranch && op.branchDest != 0 && !op.branchCond ==> JumpOpcode(Opcode(text(pc)))
  {
    hide Opcode, Rs, Rt, Rd, Sa, Funct, Imm, Index, SignExtend16;
  }

  /** What decode knows of a branch op: where a jump leads, and that whatever
      makes it redirect fetch is an instruction that diverts. */
  predicate DecodedBranch(text: Text, op: Op) {
    var w := text(op.pc);
    && (op.branchDest != 0 || Funct(w) == SUBOP_JALR ==> Diverts(text, op.pc))
    && (Diverts(text, op.pc) && JumpOpcode(Opcode(w)) ==>
          !op.branchCond && op.branchDest == JumpTarget(op.pc, Index(w)) != 0)
    && (op.branchDest != 0 && !op.branchCond ==> op.branchDest == JumpTarget(op.pc, Index(w)))
  }

  lemma BranchIsDecoded(text: Text, pc: Word)
    ensures var op := DecodeFields(FetchedOp(text, pc));
            op.isBranch ==> DecodedBranch(text, op)
  {
    var op := DecodeFields(FetchedOp(text, pc));
    DecodeKeepsPc(FetchedOp(text, pc));
    DecodedJump(text, pc);
    BranchOpDiverts(text, pc);
    BranchTakenForJalr(text, pc);
    hide DecodeFields, Opcode, Index, Funct, JumpTarget;
  }

  lemma BranchTakenForJalr(text: Text, pc: Word)
    ensures var op := DecodeFields(FetchedOp(text, pc));
            op.isBranch && Funct(text(pc)) == SUBOP_JALR ==> Diverts(text, pc)
  {
    if JumpTarget(pc, Index(text(pc))) == 0 { JumpToZero(pc, text(pc)); }
    DecodedControl(text, pc);
    ControlKinds(text(pc));
    hide DecodeFields, FetchedOp, Opcode, Funct, Imm, Index, SignExtend16, BranchTarget, JumpTarget, IsControl;
  }

  lemma JumpToZero(pc: Word, w: Word)
    requires JumpTarget(pc, Index(w)) == 0
    ensures Funct(w) == 0
  {
    assert Index(w) * 4 < 0x1000_0000;
    assert pc / 0x1000_0000 == 0 && Index(w) == 0;
  }

  lemma DecodeBranchPath(text: Text, t: Arch, p: Pipe, op: Op, resolved: Op)
    requires p.executeOp.None? && p.decodeOp.None? && p.fetchOp.Some? && op.isBranch && !p.crashed
    requires p.recover ==> OnPath(text, t, p)
    requires !p.recover ==>
               && p.hi == t.hi && p.lo == t.lo && op.pc == t.pc
               && Link(text, op.pc, p.fetchOp.value.pc, false) && Link(text, p.fetchOp.value.pc, p.pc, false)
    requires op.instruction == text(op.pc) && DecodedBranch(text, op)
    requires resolved == DecodeBranch(p, op).1
    ensures OnPath(text, t, DecodeBranch(p, op).0.(executeOp := Some(resolved)))
  {
    hide Diverts, JumpTarget, Opcode, Index, PopRas, Update, Funct;
    if op.branchDest != 0 {
      if op.branchCond {} else if p.fetchOp.value.pc == op.branchDest {} else {}
    } else {}
  }

  lemma DecodePath(text: Text, t: Arch, p: Pipe)
    requires FrontOk(text, p) && OnPath(text, t, p)
    ensures OnPath(text, t, DecodeStage(p))
  {
    if p.executeOp.None? && p.decodeOp.Some? {
      var op := DecodeFields(p.decodeOp.value);
      DecodeKeepsPc(p.decodeOp.value);
      BranchOpIsControl(text, op.pc);
      BranchIsDecoded(text, op.pc);
      DecodeIsBranch(p);
      hide DecodeFields, Diverts, BtbOk, FetchedOp, DecodedOp, JumpTarget, Opcode, Index, PushRas, DecodeBranch,
           FetchForm, DecodeStage, DecodedBranch;
      if op.isBranch { DecodeBranchPath(text, t, BeforeBranch(p, op), op, DecodeBranch(BeforeBranch(p, op), op).1); }
    }
  }

  lemma StraightStep(text: Text, t: Arch)
    requires !IsControl(text(t.pc))
    ensures Step(text, t).pc == Wrap(t.pc + 4)
  {
    hide Opcode, Rs, Rt, Rd, Sa, Funct, Imm, Index, SignExtend16, Wrap;
  }

  lemma JumpStep(m: Machine, t: Arch)
    requires Supported(m.text, t) && JumpOpcode(Opcode(m.text(t.pc)))
    ensures var n := JumpTarget(t.pc, Index(m.text(t.pc)));
            n != 0 && Step(m.text, t).pc == n && Executed(m, t).op.branchDest == 0 && IsControl(m.text(t.pc))
  {
    hide Opcode, Rs, Rt, Rd, Sa, Funct, Imm, Index, SignExtend16, Wrap, BitwiseWord;
  }

  lemma ConditionalStep(m: Machine, t: Arch)
    requires Supported(m.text, t) && ConditionalOpcode(Opcode(m.text(t.pc)))
    ensures Executed(m, t).op.isBranch
    ensures Executed(m, t).op.branchDest != 0 || (!Diverts(m.text, t.pc) && Step(m.text, t).pc == Wrap(t.pc + 4))
  {
    hide Opcode, Rs, Rt, Rd, Sa, Funct, Imm, Index, SignExtend16, Wrap, BitwiseWord;
  }

  lemma RegisterJumpStep(m: Machine, t: Arch)
    requires Supported(m.text, t) && RegisterJump(m.text(t.pc))
    ensures Executed(m, t).op.isBranch && Executed(m, t).op.branchDest != 0
  {
    hide Opcode, Rs, Rt, Rd, Sa, Funct, Imm, Index, SignExtend16, Wrap, SpecialValue, SpecialHiLo;
  }

  lemma ControlKinds(w: Word)
    ensures IsControl(w) <==> JumpOpcode(Opcode(w)) || ConditionalOpcode(Opcode(w)) || RegisterJump(w)
  {
    hide Opcode, Rs, Rt, Rd, Sa, Funct, Imm, Index, SignExtend16;
  }

  lemma SourcesKeepBranch(op: Op, regs: Regs)
    ensures SameBranch(op, WithSources(op, regs)) && WithSources(op, regs).stall == op.stall
  {
    hide Read, IsStore;
    if op.src1 == -1 {
      if IsStore(op) || op.src2 == -1 {} else {}
    } else {
      var op1 := op.(src1Value := Read(regs, op.src1));
      if IsStore(op1) || op1.src2 == -1 {} else {}
    }
  }

  lemma DecodedPc(text: Text, pc: Word)
    ensures DecodedOp(text, pc).pc == pc
  {
    DecodeKeepsPc(FetchedOp(text, pc));
    hide DecodeFields;
  }

  lemma ExecutedKeepsBranch(m: Machine, t: Arch)
    ensures Executed(m, t).op.isBranch == DecodedOp(m.text, t.pc).isBranch && Executed(m, t).op.pc == t.pc
  {
    hide ExecOp, DecodeFields, WithSources, DecodedOp;
    var op := DecodedOp(m.text, t.pc);
    DecodedPc(m.text, t.pc);
    SourcesKeepBranch(op, t.regs);
    ExecOpKeepsBranch(m, WithSources(op, t.regs), t.hi, t.lo);
  }

  /** Where the run goes after the instruction at `t`, as the pipeline finds it:
      named by an unresolved branch op, or straight on, or resolved in decode. */
  lemma NextOnPath(m: Machine, t: Arch)
    requires Supported(m.text, t)
    ensures var op := Executed(m, t).op;
            var w := m.text(t.pc);
            var n := Step(m.text, t).pc;
            || (op.isBranch && op.branchDest != 0 && n == OpTarget(op))
            || (!(op.isBranch && op.branchDest != 0) && !Diverts(m.text, t.pc) && n == Wrap(t.pc + 4))
            || (op.branchDest == 0 && Diverts(m.text, t.pc) && JumpOpcode(Opcode(w)) && n == JumpTarget(t.pc, Index(w)))
  {
    ControlDiverts(m.text, t.pc);
    hide *;
    var w := m.text(t.pc);
    ControlKinds(w);
    if !IsControl(w) {
      StraightStep(m.text, t);
      BranchOpIsControl(m.text, t.pc);
      ExecutedKeepsBranch(m, t);
    } else if JumpOpcode(Opcode(w)) {
      JumpStep(m, t);
    } else {
      if RegisterJump(w) { RegisterJumpStep(m, t); } else { ConditionalStep(m, t); }
      BranchFlow(m, t);
    }
  }

  lemma ControlDiverts(text: Text, pc: Word)
    ensures Diverts(text, pc) ==> IsControl(text(pc))
    ensures JumpOpcode(Opcode(text(pc))) && JumpTarget(pc, Index(text(pc))) != 0 && IsControl(text(pc)) ==>
            Diverts(text, pc)
  {
    hide IsControl, Opcode, Index, JumpTarget, Funct, Imm;
  }

  lemma BranchFlow(m: Machine, t: Arch)
    requires Supported(m.text, t)
    ensures var op := Executed(m, t).op;
            op.isBranch && op.branchDest != 0 ==> Step(m.text, t).pc == OpTarget(op)
  {
    InstructionsAgree(m, t);
    hide ExecOp, Step, Supported, WithSources, DecodedOp, Completed;
  }

  // -------------------------------------------------- write back, memory, execute

  lemma WbKeeps(r: Ref, p: Pipe, mem: Mem, reqs: seq<Packet>)
    requires p.run && PipeOk(r, p, mem, reqs) && !Draining(p)
    ensures var q := WbStage(p);
            && q.run && WbOk(r, q) && q.wbOp.None? && MemOk(r, q, mem, reqs)
            && FrontOk(r.m.text, q) && PathOk(r, q) && !q.recover
            && ExecIndex(q) == ExecIndex(p) && q.memOp == p.memOp
  {
    hide Step, Exits, OpInMemory, DecodedOp, FetchedOp, BtbOk, Link, FetchForm;
  }

  /** The store bypass changes nothing that the access or the result needs. */
  lemma BypassKeeps(text: Text, t: Arch, p: Pipe, op: Op)
    requires AccessOp(text, t, op)
    ensures var b := Bypassed(p, op);
            && AccessOp(text, t, b) && b == op.(memValue := b.memValue, src2Value := b.src2Value)
            && (Completed(text, t, op) ==> Completed(text, t, b))
  {
    hide Step, Exits, Supported, Opcode, Rs, Rt, Imm, AccessAddr, StoreValue;
    if IsStore(op) && op.src2 >= 0 {} else {}
  }

  /** With write back empty, a store takes its program-order value. */
  lemma BypassIsExact(r: Ref, p: Pipe, op: Op)
    requires WbOk(r, p) && p.wbOp.None?
    requires AccessOp(r.m.text, r.At(p.retired), op) && IsStore(op)
    ensures Bypassed(p, op).memValue == Read(r.At(p.retired).regs, Rt(r.m.text(op.pc)))
  {
    hide Step, Exits, Supported, Opcode, Rs, Rt, Imm, Wrap, SignExtend16, Completed;
  }

  lemma FirstTryIsGood(r: Ref, p: Pipe, op: Op)
    requires WbOk(r, p) && p.wbOp.None? && AccessOp(r.m.text, r.At(p.retired), op)
    ensures var b := Bypassed(p, op);
            && DataPacket(b).Some? && GoodAccess(r.m.text, r.At(p.retired), DataPacket(b).value)
            && DataPacket(b) == AccessOf(r.m.text, r.At(p.retired))
  {
    var t := r.At(p.retired);
    BypassKeeps(r.m.text, t, p, op);
    if IsStore(op) {
      BypassIsExact(r, p, op);
    }
    var b := Bypassed(p, op);
    assert IsLoad(b) || IsStore(b);
    hide *;
    if IsLoad(b) { LoadIsGood(r.m.text, t, b); } else { StoreIsGood(r.m.text, t, b); }
  }

  /** Issue flags do not matter to an access. */
  lemma TriedStays(text: Text, t: Arch, op: Op, pkt: Option<Packet>, ready: bool, wait: bool)
    requires AccessOp(text, t, op)
    ensures var b := op.(readyForNextStage := ready, memTried := true, memPkt := pkt, waitOnPktIssue := wait);
            AccessOp(text, t, b) && (Completed(text, t, op) ==> Completed(text, t, b))
  {
    hide Step, Exits, Supported, Opcode, Rs, Rt, Imm, AccessAddr;
  }

  /** The access in the memory stage is done and its reply has come. */
  predicate Answered(op: Op) {
    op.isMem && op.memTried && !op.waitOnPktIssue && op.readyForNextStage
  }

  lemma MemFrame(p: Pipe, accept: bool)
    ensures var (q, offered) := MemStage(p, accept);
            && q == p.(memOp := q.memOp, wbOp := q.wbOp)
            && (q.memOp.Some? ==> p.memOp.Some? && q.wbOp == p.wbOp)
            && (p.memOp.Some? && q.memOp.None? ==> q.wbOp.Some?)
  {
    hide Bypassed, DataPacket;
  }

  lemma AccessWaits(r: Ref, p: Pipe, op: Op, mem: Mem, reqs: seq<Packet>, accept: bool)
    requires WbOk(r, p) && p.wbOp.None? && p.memOp == Some(op) && op.isMem && !Answered(op)
    requires OpInMemory(r.m.text, r.At(p.retired), op, mem, reqs)
    ensures var (q, offered) := MemStage(p, accept);
            q.memOp.Some? && OpInMemory(r.m.text, r.At(p.retired), q.memOp.value, mem, Added(reqs, offered, accept))
  {
    var t := r.At(p.retired);
    BypassKeeps(r.m.text, t, p, op);
    var b := Bypassed(p, op);
    if op.memTried {
      TriedStays(r.m.text, t, b, b.memPkt, b.readyForNextStage, !accept);
    } else {
      FirstTryIsGood(r, p, op);
      TriedStays(r.m.text, t, b, DataPacket(b), false, !accept);
    }
    hide AccessOf, AccessOp, GoodAccess, Completed, Step, Exits, Bypassed, DataPacket, Run, WbOk;
  }

  lemma AccessLeaves(r: Ref, p: Pipe, op: Op, mem: Mem, reqs: seq<Packet>, accept: bool)
    requires p.memOp == Some(op) && (!op.isMem || Answered(op))
    requires OpInMemory(r.m.text, r.At(p.retired), op, mem, reqs)
    ensures var (q, offered) := MemStage(p, accept);
            && q.memOp.None? && q.wbOp.Some? && Completed(r.m.text, r.At(p.retired), q.wbOp.value)
            && mem == Step(r.m.text, r.At(p.retired)).mem && reqs == [] && offered.None?
  {
    if op.isMem { BypassKeeps(r.m.text, r.At(p.retired), p, op); }
    hide AccessOf, AccessOp, GoodAccess, Completed, Step, Exits, Bypassed, Run;
  }

  /** Memory stage: the op waits, asks once more, or hands its completed result
      to write back; memory and the accepted requests follow its phase. */
  lemma MemKeeps(r: Ref, p: Pipe, mem: Mem, reqs: seq<Packet>, accept: bool)
    requires WbOk(r, p) && p.wbOp.None? && MemOk(r, p, mem, reqs)
    ensures var (q, offered) := MemStage(p, accept);
            && WbOk(r, q) && MemOk(r, q, mem, Added(reqs, offered, accept))
            && ExecIndex(q) == ExecIndex(p)
            && (q.memOp.Some? ==> q.wbOp.None?)
            && q == p.(memOp := q.memOp, wbOp := q.wbOp)
  {
    hide OpInMemory, Completed, Step, Exits, MemStage, Run, Answered;
    MemFrame(p, accept);
    var (q, offered) := MemStage(p, accept);
    if p.memOp.None? {
      MemIdle(p, accept);
    } else if p.memOp.value.isMem && !Answered(p.memOp.value) {
      AccessWaits(r, p, p.memOp.value, mem, reqs, accept);
      WbFrame(r, p, q);
    } else {
      AccessLeaves(r, p, p.memOp.value, mem, reqs, accept);
      NextAt(r, p.retired);
    }
  }

  lemma MemIdle(p: Pipe, accept: bool)
    requires p.memOp.None?
    ensures MemStage(p, accept) == (p, None)
  {
  }

  lemma ExecutedInMemory(m: Machine, t: Arch)
    requires Supported(m.text, t)
    ensures OpInMemory(m.text, t, Executed(m, t).op, t.mem, [])
    ensures Executed(m, t).hi == Step(m.text, t).hi && Executed(m, t).lo == Step(m.text, t).lo
  {
    InstructionsAgree(m, t);
    AccessKinds(m, t);
    if Executed(m, t).op.isMem { ExecutedAccess(m, t); }
    hide AccessOf, ExecOp, Step, Supported, Completed, AccessOp, WithSources, DecodedOp;
  }

  /** Resolving a branch against the op behind it leaves fetch on the path. */
  lemma ResolveStays(m: Machine, t: Arch, p: Pipe)
    requires Supported(m.text, t) && p.executeOp.Some? && p.executeOp.value.pc == t.pc && !p.recover
    requires Linked(m.text, p)
    requires p.hi == Step(m.text, t).hi && p.lo == Step(m.text, t).lo
    ensures var op := Executed(m, t).op;
            OnPath(m.text, Step(m.text, t), ResolveBranch(p, op).(executeOp := None, memOp := Some(op)))
  {
    NextOnPath(m, t);
    ExecutedKeepsBranch(m, t);
    var op := Executed(m, t).op;
    var next := Step(m.text, t);
    hide *;
    if op.isBranch && op.branchDest != 0 {
      UnresolvedStays(m.text, next, p, op);
    } else {
      ResolvedStays(p, op);
      LinkLeadsOn(m.text, t, p, next.pc, op);
      StraightStays(m.text, next, p, op);
    }
  }

  lemma ResolvedStays(p: Pipe, op: Op)
    requires !(op.isBranch && op.branchDest != 0)
    ensures ResolveBranch(p, op) == p
  {
  }

  /** Behind an instruction that execute does not redirect, the pipeline holds
      the right successor. */
  lemma LinkLeadsOn(text: Text, t: Arch, p: Pipe, n: Word, op: Op)
    requires p.executeOp.Some? && p.executeOp.value.pc == t.pc && Linked(text, p)
    requires var w := text(t.pc);
             || (!(op.isBranch && op.branchDest != 0) && !Diverts(text, t.pc) && n == Wrap(t.pc + 4))
             || (op.branchDest == 0 && Diverts(text, t.pc) && JumpOpcode(Opcode(w)) && n == JumpTarget(t.pc, Index(w)))
    ensures NextPc(p) == n
  {
    hide Diverts, JumpTarget, Opcode, Index, JumpOpcode, Wrap;
  }

  lemma StraightStays(text: Text, next: Arch, p: Pipe, op: Op)
    requires !p.recover && Linked(text, p) && NextPc(p) == next.pc && p.hi == next.hi && p.lo == next.lo
    ensures OnPath(text, next, p.(executeOp := None, memOp := Some(op)))
  {
    hide Link;
  }

  lemma UnresolvedStays(text: Text, next: Arch, p: Pipe, op: Op)
    requires !p.recover && Linked(text, p) && op.isBranch && op.branchDest != 0
    requires next.pc == OpTarget(op) && p.hi == next.hi && p.lo == next.lo
    ensures OnPath(text, next, ResolveBranch(p, op).(executeOp := None, memOp := Some(op)))
  {
    hide Update, Link;
  }

  lemma ExecuteIsStep(r: Ref, p: Pipe)
    requires WbOk(r, p) && p.memOp.None? && FrontOk(r.m.text, p) && p.executeOp.Some?
    requires !p.recover && PathOk(r, p)
    ensures var t := r.At(ExecIndex(p));
            var e := Executed(r.m, t);
            && p.executeOp.value.pc == t.pc
            && ExecuteStage(r.m, p) ==
                 ResolveBranch(p.(hi := e.hi, lo := e.lo), e.op).(executeOp := None, memOp := Some(e.op))
  {
    hide ExecOp, ExecuteStage, ResolveBranch, DecodedOp, WithSources, FrontOk, PathOk, WbOk, Run, ExecuteReady;
    var t := r.At(ExecIndex(p));
    var op := WithSources(p.executeOp.value, t.regs);
    assert op.stall == 0 && ExecuteStage(r.m, p) == ExecuteReady(r.m, p, op) by { ExecuteReads(r, p); }
    assert p.executeOp.value.pc == t.pc && p.hi == t.hi && p.lo == t.lo by { OldestOnPath(r, p); }
    assert p.executeOp.value == DecodedOp(r.m.text, t.pc) by { ExecuteForm(r, p); }
    ReadyIsResolve(r.m, p, op);
  }

  lemma OldestOnPath(r: Ref, p: Pipe)
    requires !p.recover && PathOk(r, p)
    ensures var t := r.At(ExecIndex(p));
            Head(p) == t.pc && p.hi == t.hi && p.lo == t.lo
  {
    hide Run, Linked;
  }

  lemma ExecuteForm(r: Ref, p: Pipe)
    requires FrontOk(r.m.text, p) && p.executeOp.Some?
    ensures p.executeOp.value == DecodedOp(r.m.text, p.executeOp.value.pc)
  {
    hide DecodedOp, FetchedOp, FetchForm, BtbOk;
  }

  lemma ReadyIsResolve(m: Machine, p: Pipe, op: Op)
    requires op.stall == 0
    ensures var e := ExecOp(m, op, p.hi, p.lo);
            ExecuteReady(m, p, op) ==
              ResolveBranch(p.(hi := e.hi, lo := e.lo), e.op).(executeOp := None, memOp := Some(e.op))
  {
    hide ExecOp, ResolveBranch;
  }

  lemma WbFrame(r: Ref, p: Pipe, q: Pipe)
    requires WbOk(r, p) && q.regs == p.regs && q.wbOp == p.wbOp && q.retired == p.retired
    ensures WbOk(r, q)
  {
  }

  /** Execute is where the pipeline takes one step of the instruction set. */
  lemma ExecuteAdvances(r: Ref, p: Pipe, mem: Mem, reqs: seq<Packet>)
    requires WbOk(r, p) && MemOk(r, p, mem, reqs) && p.memOp.None? && FrontOk(r.m.text, p) && p.executeOp.Some?
    requires !p.recover && PathOk(r, p)
    requires Supported(r.m.text, r.At(ExecIndex(p)))
    ensures var q := ExecuteStage(r.m, p);
            && WbOk(r, q) && MemOk(r, q, mem, reqs) && PathOk(r, q)
            && ExecIndex(q) == ExecIndex(p) + 1 && q.memOp.Some? && q.wbOp == p.wbOp
  {
    hide WbOk, Executed, ExecuteStage, Step, Run, Completed, OpInMemory, Supported, OnPath, ResolveBranch, FrontOk;
    var n := ExecIndex(p);
    var t := r.At(n);
    var e := Executed(r.m, t);
    var p1 := p.(hi := e.hi, lo := e.lo);
    var q := ResolveBranch(p1, e.op).(executeOp := None, memOp := Some(e.op));
    assert q == ExecuteStage(r.m, p) && p1.executeOp.value.pc == t.pc by { ExecuteIsStep(r, p); }
    ResolveFrame(p1, e.op);
    assert MemIndex(q) == n && ExecIndex(q) == n + 1;
    NextAt(r, n);
    assert WbOk(r, q) by { WbFrame(r, p, q); }
    assert MemOk(r, q, mem, reqs) by { ExecutedInMemory(r.m, t); }
    assert PathOk(r, q) by {
      assert Linked(r.m.text, p1) by { LinkedFrame(r, p, p1); }
      ExecutedInMemory(r.m, t);
      ResolveStays(r.m, t, p1);
    }
    hide *;
  }

  lemma NextAt(r: Ref, n: nat)
    ensures r.At(n + 1) == Step(r.m.text, r.At(n))
  {
  }

  lemma LinkedFrame(r: Ref, p: Pipe, q: Pipe)
    requires PathOk(r, p) && !p.recover && q == p.(hi := q.hi, lo := q.lo)
    ensures Linked(r.m.text, q)
  {
    hide Link, Run;
  }

  lemma ResolveFrame(p: Pipe, op: Op)
    ensures var q := ResolveBranch(p, op);
            q.regs == p.regs && q.wbOp == p.wbOp && q.retired == p.retired && q.memOp == p.memOp
                && q.executeOp == p.executeOp
            && q.decodeOp == p.decodeOp && q.fetchOp == p.fetchOp && q.hi == p.hi && q.lo == p.lo && q.run == p.run
  {
    hide Update;
  }
}
