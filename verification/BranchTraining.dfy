/** How the pipeline drives its predictor: fetch follows the branch target
    buffer, decode and execute enter in it exactly the outcomes of the control
    transfers, calls and returns use the return address stack, and a flush comes
    exactly when what was fetched is wrong. */
module BranchTraining {
  import opened Words
  import opened Isa
  import opened Packets
  import opened PredictorSpec
  import opened PipeSpec
  import opened IsaAgreement
  import opened PipeInvariant
  import opened PipeStages
  import opened PredictorProofs

  // -------------------------------------------------------------------- fetch

  /** Fetch turns to a new instruction in this cycle. */
  predicate StartsFetch(p: Pipe) {
    p.decodeOp.None? && (p.fetchOp.Some? ==> p.fetchOp.value.isFetchIssued && p.fetchOp.value.readyForNextStage)
  }

  /** The pc that the buffer holds for the instruction at `pc`, unless it is the
      mark of a miss; else the next one. */
  function Predicted(t: map<Word, Word>, pc: Word): Word {
    if pc in t && t[pc] != 0xFFFF_FFFF then t[pc] else (pc + 4) % 0x1_0000_0000
  }

  /** Fetch follows the buffer. */
  lemma FetchFollowsBuffer(p: Pipe, accept: bool)
    requires UniquePcs(p.bp.btb)
    ensures var (q, offered) := FetchStage(p, accept);
            && q.bp == p.bp && q.recover == p.recover
            && if StartsFetch(p) then
                 && q.pc == Predicted(Table(p.bp.btb), p.pc)
                 && q.fetchOp == Some(NewOp(p.pc).(isFetchIssued := accept)) && q.decodeOp == p.fetchOp
                 && offered == Some(Packet(false, FetchPacket, p.pc, 4, [0, 0, 0, 0]))
               else q.pc == p.pc
  {
    TargetIsLookup(p.bp, p.pc);
    hide GetTarget, Table, UniquePcs;
  }

  // ------------------------------------------------------------------ execute

  /** The instruction at `t` goes to the address that it names. */
  predicate GoesThere(text: Text, t: Arch) {
    match Decode(text(t.pc))
    case Branch(cond, rs, rt, _, _) => Taken(cond, Read(t.regs, rs), Read(t.regs, rt))
    case JumpReg(_) => true
    case JumpRegLink(_, _) => true
    case Jump(_, _) => true
    case _ => false
  }

  /** Decode leaves the transfer at `pc` for execute to resolve. */
  predicate LeftOpen(text: Text, pc: Word) {
    var w := text(pc);
    || Decode(w).JumpReg? || Decode(w).JumpRegLink?
    || ((Decode(w).Branch? || Opcode(w) == 1) && BranchTarget(pc, SignExtend16(Imm(w))) != 0)
  }

  /** Buffer contents `t` become `u` when the transfer at `pc` has turned out to
      go to `target`, or not to be taken. */
  predicate Learns(t: map<Word, Word>, capacity: nat, pc: Word, taken: bool, target: Word, u: map<Word, Word>) {
    if !taken then u == t - {pc}
    else if pc in t || |t| < capacity then u == t[pc := target]
    else u == t
  }

  lemma UpdateLearns(bp: Predictor, pc: Word, taken: bool, target: Word)
    requires UniquePcs(bp.btb)
    ensures var q := Update(bp, pc, taken, target);
            && UniquePcs(q.btb) && |q.btb| == |bp.btb| && q == bp.(btb := q.btb)
            && Learns(Table(bp.btb), |bp.btb|, pc, taken, target, Table(q.btb))
  {
    UpdateIsTable(bp.btb, pc, taken, target);
    hide UpdateBtb, Table, UniquePcs;
  }

  /** What execute makes of a transfer: the op is an open branch exactly when
      decode left it open, and taken when the instruction set goes there. */
  predicate OutcomeIs(m: Machine, t: Arch) {
    var op := Executed(m, t).op;
    && (op.isBranch && op.branchDest != 0 <==> LeftOpen(m.text, t.pc))
    && (LeftOpen(m.text, t.pc) ==> op.branchTaken == GoesThere(m.text, t))
  }

  lemma SpecialOutcome(m: Machine, t: Arch, op: Op)
    requires Supported(m.text, t) && SpecialOperands(m.text(t.pc), t, op)
    requires op == WithSources(DecodedOp(m.text, t.pc), t.regs)
    ensures OutcomeIs(m, t)
  {
    hide WithSources, DecodedOp, SpecialHiLo, SpecialValue, SpecialStall, Opcode, Rs, Rt, Rd, Sa, Funct, Imm, Index,
         SignExtend16, BranchTarget;
  }

  lemma BranchOutcome(m: Machine, t: Arch, op: Op)
    requires BranchOperands(m.text(t.pc), t, op) && op == WithSources(DecodedOp(m.text, t.pc), t.regs)
    ensures OutcomeIs(m, t)
  {
    hide WithSources, DecodedOp, Signed, Opcode, Rs, Rt, Rd, Sa, Funct, Imm, Index, SignExtend16, BranchTarget,
         ImmediateValue, DecodeSpecial;
    if Opcode(m.text(t.pc)) == OP_BRSPEC {} else {}
  }

  /** The other instructions are no transfers, or jumps resolved in decode. */
  lemma OtherOutcome(m: Machine, t: Arch)
    requires Opcode(m.text(t.pc)) != OP_SPECIAL && !ConditionalOpcode(Opcode(m.text(t.pc))) && Supported(m.text, t)
    ensures OutcomeIs(m, t)
  {
    hide Executed, Supported, BranchTarget, SignExtend16, IsControl, Opcode, Imm, Funct;
    NotLeftOpen(m.text, t.pc);
    ControlKinds(m.text(t.pc));
    if JumpOpcode(Opcode(m.text(t.pc))) {
      JumpStep(m, t);
    } else {
      BranchOpIsControl(m.text, t.pc);
      ExecutedKeepsBranch(m, t);
    }
  }

  lemma NotLeftOpen(text: Text, pc: Word)
    requires Opcode(text(pc)) != OP_SPECIAL && !ConditionalOpcode(Opcode(text(pc)))
    ensures !LeftOpen(text, pc)
  {
    hide Opcode, Rs, Rt, Rd, Sa, Funct, Imm, Index, SignExtend16, BranchTarget;
  }

  lemma OutcomesAgree(m: Machine, t: Arch)
    requires Supported(m.text, t)
    ensures OutcomeIs(m, t)
  {
    hide OutcomeIs, Supported, Executed, SpecialOperands, BranchOperands, WithSources, DecodedOp, Opcode;
    var op := WithSources(DecodedOp(m.text, t.pc), t.regs);
    if Opcode(m.text(t.pc)) == OP_SPECIAL {
      SpecialDecoded(m, t);
      SpecialOutcome(m, t, op);
    } else if ConditionalOpcode(Opcode(m.text(t.pc))) {
      BranchDecoded(m, t);
      BranchOutcome(m, t, op);
    } else {
      OtherOutcome(m, t);
    }
  }

  /** Execute teaches the buffer what the instruction set does with a transfer
      that decode left open: taken, its pc leads to the next pc of the program;
      not taken, its pc has no entry. No other instruction changes anything. */
  lemma ExecuteTrains(r: Ref, p: Pipe)
    requires WbOk(r, p) && p.memOp.None? && FrontOk(r.m.text, p) && p.executeOp.Some? && !p.recover && PathOk(r, p)
    requires Supported(r.m.text, r.At(ExecIndex(p))) && UniquePcs(p.bp.btb)
    ensures var t := r.At(ExecIndex(p));
            var q := ExecuteStage(r.m, p);
            && q.bp == p.bp.(btb := q.bp.btb) && UniquePcs(q.bp.btb) && |q.bp.btb| == |p.bp.btb|
            && if LeftOpen(r.m.text, t.pc) then
                 Learns(Table(p.bp.btb), |p.bp.btb|, t.pc, GoesThere(r.m.text, t), Step(r.m.text, t).pc,
                        Table(q.bp.btb))
               else q.bp == p.bp
  {
    hide *;
    var t := r.At(ExecIndex(p));
    var e := Executed(r.m, t);
    var p1 := p.(hi := e.hi, lo := e.lo);
    ExecuteIsStep(r, p);
    OutcomesAgree(r.m, t);
    BranchFlow(r.m, t);
    ExecutedKeepsBranch(r.m, t);
    ResolveTrains(r.m, t, p1);
  }

  lemma ResolveTrains(m: Machine, t: Arch, p: Pipe)
    requires OutcomeIs(m, t) && UniquePcs(p.bp.btb) && Executed(m, t).op.pc == t.pc
    requires var op := Executed(m, t).op;
             op.isBranch && op.branchDest != 0 ==> Step(m.text, t).pc == OpTarget(op)
    ensures var op := Executed(m, t).op;
            var q := ResolveBranch(p, op);
            && q.bp == p.bp.(btb := q.bp.btb) && UniquePcs(q.bp.btb) && |q.bp.btb| == |p.bp.btb|
            && if LeftOpen(m.text, t.pc) then
                 Learns(Table(p.bp.btb), |p.bp.btb|, t.pc, GoesThere(m.text, t), Step(m.text, t).pc, Table(q.bp.btb))
               else q.bp == p.bp
  {
    hide Executed, Step, Learns, UniquePcs, Table, LeftOpen, GoesThere, Update;
    var op := Executed(m, t).op;
    UpdateLearns(p.bp, t.pc, op.branchTaken, OpTarget(op));
  }

  // ------------------------------------------------------------------ flushes

  /** A flush is scheduled, of everything behind execute, to restart at `pc`. */
  predicate Flushes(q: Pipe, from: Flush, pc: Word) {
    q.recover && q.flush == from && q.recoverDest == pc
  }

  /** Execute flushes exactly when what was fetched behind the instruction is not
      the next instruction of the program, and then restarts there. */
  lemma ExecuteFlushesIff(r: Ref, p: Pipe)
    requires WbOk(r, p) && p.memOp.None? && FrontOk(r.m.text, p) && p.executeOp.Some? && !p.recover && PathOk(r, p)
    requires Supported(r.m.text, r.At(ExecIndex(p)))
    ensures var next := Step(r.m.text, r.At(ExecIndex(p))).pc;
            var q := ExecuteStage(r.m, p);
            if NextPc(p) == next then !q.recover else Flushes(q, FlushExecute, next)
  {
    hide *;
    var t := r.At(ExecIndex(p));
    var e := Executed(r.m, t);
    var p1 := p.(hi := e.hi, lo := e.lo);
    ExecuteIsStep(r, p);
    NextOnPath(r.m, t);
    ExecutedKeepsBranch(r.m, t);
    assert Linked(r.m.text, p1) by { LinkedFrame(r, p, p1); }
    SameNextPc(p, p1);
    if e.op.isBranch && e.op.branchDest != 0 {
      ResolveFlushes(p1, e.op);
    } else {
      ResolvedStays(p1, e.op);
      LinkLeadsOn(r.m.text, t, p1, Step(r.m.text, t).pc, e.op);
    }
    StillFlushes(ResolveBranch(p1, e.op), e.op, Step(r.m.text, t).pc);
  }

  lemma SameNextPc(p: Pipe, q: Pipe)
    requires q == p.(hi := q.hi, lo := q.lo)
    ensures NextPc(q) == NextPc(p) && q.recover == p.recover && q.executeOp == p.executeOp
  {
  }

  lemma ResolveFlushes(p: Pipe, op: Op)
    requires !p.recover && op.isBranch && op.branchDest != 0
    ensures var q := ResolveBranch(p, op);
            if NextPc(p) == OpTarget(op) then !q.recover else Flushes(q, FlushExecute, OpTarget(op))
  {
    hide Update;
  }

  lemma StillFlushes(p: Pipe, op: Op, pc: Word)
    ensures var q := p.(executeOp := None, memOp := Some(op));
            q.recover == p.recover && Flushes(q, FlushExecute, pc) == Flushes(p, FlushExecute, pc)
  {
  }

  // ------------------------------------------------------------------- decode

  /** What decode finds at `pc`: a jump, a conditional branch, or neither. */
  lemma DecodedTransfer(text: Text, pc: Word)
    ensures var op := DecodeFields(FetchedOp(text, pc));
            var w := text(pc);
            && op.pc == pc && op.instruction == w && op.opcode == Opcode(w)
            && (op.isBranch <==> ConditionalOpcode(Opcode(w)) || JumpOpcode(Opcode(w)) || RegisterJump(w))
            && op.branchDest == (if ConditionalOpcode(Opcode(w)) then BranchTarget(pc, SignExtend16(Imm(w)))
                                 else if JumpOpcode(Opcode(w)) then JumpTarget(pc, Index(w)) else 0)
            && (op.branchCond <==> ConditionalOpcode(Opcode(w)))
  {
    DecodedControl(text, pc);
    DecodeKeepsPc(FetchedOp(text, pc));
    hide Opcode, Rs, Rt, Rd, Sa, Funct, Imm, Index, SignExtend16, BranchTarget, JumpTarget, LoadOpcode, StoreOpcode,
         ImmediateOpcode, Links31, RegisterJump;
  }

  /** The instruction at `pc` has decode ask the return stack: a JALR, or a
      branch that names address 0 with the low bits of a JALR. */
  predicate AsksReturnStack(text: Text, pc: Word) {
    var w := text(pc);
    && Funct(w) == 0x09
    && (Opcode(w) == 0 || (ConditionalOpcode(Opcode(w)) && BranchTarget(pc, SignExtend16(Imm(w))) == 0))
  }

  /** J or JAL with a target other than 0, which decode resolves. */
  predicate NamesTarget(text: Text, pc: Word) {
    JumpOpcode(Opcode(text(pc))) && JumpTarget(pc, Index(text(pc))) != 0
  }

  /** Decode works on the instruction at `pc` in this cycle. */
  predicate AtDecode(text: Text, p: Pipe, pc: Word) {
    p.executeOp.None? && p.decodeOp == Some(FetchedOp(text, pc)) && FetchedOp(text, pc).pc == pc
  }

  /** Predictor, pending flush and failure are the same. */
  predicate SameLook(p: Pipe, q: Pipe) {
    && q.bp == p.bp && q.crashed == p.crashed
    && q.recover == p.recover && q.flush == p.flush && q.recoverDest == p.recoverDest
  }

  /** A redirection to `dest` has been asked for: a flush unless the op in fetch
      is already there. */
  predicate Redirects(p: Pipe, q: Pipe, dest: Word) {
    p.fetchOp.Some? && !p.recover ==>
      if p.fetchOp.value.pc == dest then !q.recover else Flushes(q, FlushDecode, dest)
  }

  lemma JumpActs(p: Pipe, op: Op)
    requires op.branchDest != 0 && !op.branchCond
    ensures var q := DecodeBranch(p, op).0;
            q.bp == Update(p.bp, op.pc, true, op.branchDest) && Redirects(p, q, op.branchDest)
  {
    hide Update, PopRas, Funct;
  }

  lemma ReturnActs(p: Pipe, op: Op)
    requires op.branchDest == 0 && Funct(op.instruction) == SUBOP_JALR
    ensures var q := DecodeBranch(p, op).0;
            && q.bp == PopRas(p.bp).1
            && if PopRas(p.bp).0 == 0 then q.recover == p.recover else Redirects(p, q, PopRas(p.bp).0)
  {
    hide Update, PopRas, Funct;
  }

  lemma OthersRest(p: Pipe, op: Op)
    requires if op.branchDest == 0 then Funct(op.instruction) != SUBOP_JALR else op.branchCond
    ensures DecodeBranch(p, op).0 == p
  {
    hide Update, PopRas, Funct;
  }

  /** The state in which decode looks at the branch at `pc`: a JAL has pushed its
      return address. */
  function Called(text: Text, p: Pipe, pc: Word): Pipe {
    if Opcode(text(pc)) == 3 then p.(decodeOp := None, bp := PushRas(p.bp, (pc + 4) % 0x1_0000_0000))
    else p.(decodeOp := None)
  }

  lemma CalledIs(text: Text, p: Pipe, pc: Word)
    ensures BeforeBranch(p, DecodeFields(FetchedOp(text, pc))) == Called(text, p, pc)
  {
    DecodedTransfer(text, pc);
    hide DecodeFields, FetchedOp, PushRas, Opcode, Index, JumpTarget, BranchTarget, Imm, SignExtend16, Funct,
         ConditionalOpcode, JumpOpcode, RegisterJump;
  }

  lemma DecodeResult(text: Text, p: Pipe, pc: Word)
    requires AtDecode(text, p, pc)
    ensures var s := Called(text, p, pc);
            var op := DecodeFields(FetchedOp(text, pc));
            SameLook(if op.isBranch then DecodeBranch(s, op).0 else s, DecodeStage(p))
  {
    DecodeIsBranch(p);
    CalledIs(text, p, pc);
    hide DecodeStage, DecodeFields, FetchedOp, DecodeBranch, BeforeBranch, Called;
  }

  /** Which of the three things decode does with the instruction at `pc`. */
  lemma DecodeCase(text: Text, pc: Word)
    ensures var op := DecodeFields(FetchedOp(text, pc));
            && op.pc == pc && op.instruction == text(pc)
            && (NamesTarget(text, pc) ==>
                  op.isBranch && !op.branchCond && op.branchDest == JumpTarget(pc, Index(text(pc))))
            && (AsksReturnStack(text, pc) ==> op.isBranch && op.branchDest == 0 && Funct(text(pc)) == SUBOP_JALR)
            && (op.isBranch && !NamesTarget(text, pc) && !AsksReturnStack(text, pc) ==>
                  if op.branchDest == 0 then Funct(text(pc)) != SUBOP_JALR else op.branchCond)
    ensures !(NamesTarget(text, pc) && AsksReturnStack(text, pc))
  {
    DecodedTransfer(text, pc);
    NoJumpAsks(text, pc);
    hide DecodeFields, FetchedOp, BranchTarget, JumpTarget, Opcode, Funct, Imm, Index, SignExtend16, RegisterJump;
  }

  lemma NoJumpAsks(text: Text, pc: Word)
    ensures RegisterJump(text(pc)) <==> Opcode(text(pc)) == 0 && (Funct(text(pc)) == 8 || Funct(text(pc)) == 9)
    ensures JumpOpcode(Opcode(text(pc))) && JumpTarget(pc, Index(text(pc))) == 0 ==> Funct(text(pc)) == 0
  {
    if JumpTarget(pc, Index(text(pc))) == 0 { JumpToZero(pc, text(pc)); }
    hide Opcode, Funct, JumpTarget, Index;
  }

  /** Decode enters J and JAL with their target in the buffer, and changes the
      buffer for nothing else. */
  lemma DecodeTrains(text: Text, p: Pipe, pc: Word)
    requires AtDecode(text, p, pc) && UniquePcs(p.bp.btb)
    ensures var q := DecodeStage(p);
            && UniquePcs(q.bp.btb) && |q.bp.btb| == |p.bp.btb|
            && if NamesTarget(text, pc) then
                 Learns(Table(p.bp.btb), |p.bp.btb|, pc, true, JumpTarget(pc, Index(text(pc))), Table(q.bp.btb))
               else q.bp.btb == p.bp.btb
  {
    var op := DecodeFields(FetchedOp(text, pc));
    var s := Called(text, p, pc);
    DecodeResult(text, p, pc);
    DecodeCase(text, pc);
    assert s.bp.btb == p.bp.btb;
    hide Called, AtDecode, NamesTarget, AsksReturnStack, DecodeFields, FetchedOp, DecodeBranch, DecodeStage, Update,
         PopRas, UniquePcs, Table, Learns, Redirects;
    if NamesTarget(text, pc) {
      JumpActs(s, op);
      UpdateLearns(s.bp, pc, true, op.branchDest);
    } else if AsksReturnStack(text, pc) {
      ReturnActs(s, op);
      PopKeepsBuffer(s.bp);
    } else if op.isBranch {
      OthersRest(s, op);
    }
  }

  lemma PopKeepsBuffer(p: Predictor)
    ensures PopRas(p).1.btb == p.btb
  {
  }

  /** Decode flushes exactly when the op behind a J or JAL is not at its target,
      or the return stack has an address other than 0 and of the op behind; fetch
      then restarts there. No conditional branch makes it flush. */
  lemma DecodeFlushesIff(text: Text, p: Pipe, pc: Word)
    requires AtDecode(text, p, pc) && p.fetchOp.Some? && !p.recover
    ensures var q := DecodeStage(p);
            var next := p.fetchOp.value.pc;
            var target := JumpTarget(pc, Index(text(pc)));
            var popped := PopRas(p.bp).0;
            if NamesTarget(text, pc) && next != target then Flushes(q, FlushDecode, target)
            else if AsksReturnStack(text, pc) && popped != 0 && next != popped then Flushes(q, FlushDecode, popped)
            else !q.recover
  {
    var op := DecodeFields(FetchedOp(text, pc));
    var s := Called(text, p, pc);
    DecodeResult(text, p, pc);
    DecodeCase(text, pc);
    assert s.fetchOp == p.fetchOp && s.recover == p.recover && (AsksReturnStack(text, pc) ==> s.bp == p.bp);
    hide Called, AtDecode, NamesTarget, AsksReturnStack, DecodeFields, FetchedOp, DecodeBranch, DecodeStage, Update,
         PopRas, JumpTarget, Index;
    if NamesTarget(text, pc) {
      JumpActs(s, op);
    } else if AsksReturnStack(text, pc) {
      ReturnActs(s, op);
    } else if op.isBranch {
      OthersRest(s, op);
    }
  }

  /** The return stack of the predictor as far as decode changes it: a JAL pushes
      the address of the instruction behind it, a JALR pops, and nothing else
      touches it. */
  lemma DecodeUsesStack(text: Text, p: Pipe, pc: Word)
    requires AtDecode(text, p, pc)
    ensures var q := DecodeStage(p);
            SameStack(if Opcode(text(pc)) == 3 then PushRas(p.bp, (pc + 4) % 0x1_0000_0000)
                      else if AsksReturnStack(text, pc) then PopRas(p.bp).1
                      else p.bp, q.bp)
  {
    var op := DecodeFields(FetchedOp(text, pc));
    var s := Called(text, p, pc);
    DecodeResult(text, p, pc);
    DecodeCase(text, pc);
    hide AtDecode, NamesTarget, DecodeFields, FetchedOp, DecodeBranch, DecodeStage, PopRas, PushRas, UpdateBtb,
         Redirects, Opcode, Funct, BranchTarget, JumpTarget, Imm, Index, SignExtend16;
    if NamesTarget(text, pc) {
      JumpActs(s, op);
    } else if AsksReturnStack(text, pc) {
      ReturnActs(s, op);
    } else if op.isBranch {
      OthersRest(s, op);
    }
  }

  predicate SameStack(p: Predictor, q: Predictor) {
    q.ras == p.ras && q.rasNext == p.rasNext && q.rasCount == p.rasCount
  }

  /** A JAL pushes the address of the instruction behind it. */
  lemma CallsPush(text: Text, p: Pipe, pc: Word, s: Ideal)
    requires AtDecode(text, p, pc) && Opcode(text(pc)) == 3 && Tracks(p.bp, s) && |s.stack| < 255
    ensures Tracks(DecodeStage(p).bp, IdealPush(s, Slots(p.bp), (pc + 4) % 0x1_0000_0000))
  {
    hide *;
    var x := (pc + 4) % 0x1_0000_0000;
    DecodeUsesStack(text, p, pc);
    PushTracks(p.bp, s, x);
    StackTracks(PushRas(p.bp, x), DecodeStage(p).bp, IdealPush(s, Slots(p.bp), x));
  }

  /** A JALR takes the top off the stack, and fetch goes there when the buffer
      still has it, unless it is there already or the address is 0. */
  lemma ReturnsPop(text: Text, p: Pipe, pc: Word, s: Ideal)
    requires AtDecode(text, p, pc) && AsksReturnStack(text, pc) && Tracks(p.bp, s)
    ensures Tracks(DecodeStage(p).bp, IdealPop(s).1)
    ensures s.intact > 0 && p.fetchOp.Some? && !p.recover ==>
              var q := DecodeStage(p);
              var top := s.stack[0];
              if top == 0 || p.fetchOp.value.pc == top then !q.recover else Flushes(q, FlushDecode, top)
  {
    hide *;
    DecodeUsesStack(text, p, pc);
    NotACall(text, pc);
    PopTracks(p.bp, s);
    StackTracks(PopRas(p.bp).1, DecodeStage(p).bp, IdealPop(s).1);
    if s.intact > 0 && p.fetchOp.Some? && !p.recover {
      TopIs(p.bp, s);
      DecodeFlushesIff(text, p, pc);
      DecodeCase(text, pc);
    }
  }

  /** No other instruction changes the stack. */
  lemma OthersKeepStack(text: Text, p: Pipe, pc: Word, s: Ideal)
    requires AtDecode(text, p, pc) && Opcode(text(pc)) != 3 && !AsksReturnStack(text, pc) && Tracks(p.bp, s)
    ensures Tracks(DecodeStage(p).bp, s)
  {
    hide *;
    DecodeUsesStack(text, p, pc);
    StackTracks(p.bp, DecodeStage(p).bp, s);
  }

  lemma NotACall(text: Text, pc: Word)
    ensures AsksReturnStack(text, pc) ==> Opcode(text(pc)) != 3
  {
    hide Opcode, Funct, BranchTarget, Imm, SignExtend16;
  }

  lemma TopIs(p: Predictor, s: Ideal)
    requires Tracks(p, s) && s.intact > 0
    ensures s.stack != [] && IdealPop(s).0 == s.stack[0]
  {
  }

  lemma StackTracks(p: Predictor, q: Predictor, s: Ideal)
    requires SameStack(p, q) && Tracks(p, s)
    ensures Tracks(q, s)
  {
    assert forall i :: 0 <= i < s.intact ==> Back(q, i) == Back(p, i);
  }
}
