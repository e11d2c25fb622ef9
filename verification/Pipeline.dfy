/** The pipeline as the object that the simulator clocks: five slots, registers
    and a pending recovery, updated in place by one method per stage. Each
    method is proved to do what the transition function of its stage says. */
module Pipeline {
  import opened Words
  import opened Isa
  import opened Packets
  import opened PredictorSpec
  import opened BranchPredictor
  import opened PipeSpec

  class PipeState {
    const m: Machine
    const bp: DynamicBranchPredictor
    const regs: array<Word>

    var fetchOp: Option<Op>
    var decodeOp: Option<Op>
    var executeOp: Option<Op>
    var memOp: Option<Op>
    var wbOp: Option<Op>

    var hi: Word
    var lo: Word
    var pc: Word
    var recover: bool
    var recoverDest: Word
    var flush: Flush
    var run: bool
    var retired: nat
    var crashed: bool

    ghost predicate Valid()
      reads this, bp
    {
      regs.Length == 32 && bp.Valid() && regs != bp.ras
    }

    ghost function Repr(): set<object> {
      {this, bp, bp.btb, bp.ras, regs}
    }

    ghost function Snapshot(): Pipe
      requires Valid()
      reads this, bp, bp.btb, bp.ras, regs
    {
      Pipe(fetchOp, decodeOp, executeOp, memOp, wbOp,
           regs[..], hi, lo, pc, recover, recoverDest, flush, run, retired, bp.Value(), crashed)
    }

    lemma SnapshotRun()
      requires Valid()
      ensures Snapshot().run == run
    {
    }

    constructor (m: Machine, bp: DynamicBranchPredictor)
      requires bp.Valid()
      ensures Valid() && fresh(regs) && this.m == m && this.bp == bp
      ensures Snapshot() == Start(bp.Value())
    {
      this.m, this.bp := m, bp;
      fetchOp, decodeOp, executeOp, memOp, wbOp := None, None, None, None, None;
      regs := new Word[32](_ => 0);
      hi, lo, pc := 0, 0, 0x0040_0000;
      recover, recoverDest, flush := false, 0, NoFlush;
      run, retired, crashed := true, 0, false;
      new;
      assert regs[..] == seq(32, _ => 0);
    }

    /** Schedules a recovery unless an older op has already asked for one. */
    method PipeRecover(flush: Flush, dest: Word)
      requires Valid()
      modifies `recover, `recoverDest, `flush
      ensures Valid() && Snapshot() == PipeSpec.PipeRecover(old(Snapshot()), flush, dest)
    {
      if recover {
        return;
      }
      recover := true;
      this.flush := flush;
      recoverDest := dest;
    }

    // ------------------------------------------------------------- write back

    method PipeStageWb()
      requires Valid()
      modifies `wbOp, `pc, `run, `retired, regs
      ensures Valid() && Snapshot() == WbStage(old(Snapshot()))
    {
      if wbOp.None? {
        return;
      }
      var op := wbOp.value;
      wbOp := None;
      if op.dst != -1 && op.dst != 0 {
        regs[op.dst] := op.dstValue;
      }
      if op.opcode == OP_SPECIAL && op.subop == SUBOP_SYSCALL {
        if op.src1Value == 0xA {
          pc := op.pc;
          run := false;
        }
      }
      retired := retired + 1;
      assert regs[..] == Retire(old(regs[..]), op);
    }

    // ----------------------------------------------------------------- memory

    /** The store bypass: a store takes its value here, from write back when the
        op there writes the register. */
    method BypassStore(op: Op) returns (r: Op)
      requires Valid()
      ensures r == Bypassed(Snapshot(), op)
    {
      r := op;
      if StoreOpcode(op.opcode) && op.src2 >= 0 {
        var value := regs[op.src2];
        if wbOp.Some? && op.src2 == wbOp.value.dst {
          value := wbOp.value.dstValue;
        }
        r := r.(memValue := value, src2Value := value);
      }
    }

    /** `accept` is what data memory answers to the request offered, if any. */
    method PipeStageMem(accept: bool) returns (offered: Option<Packet>)
      requires Valid()
      modifies `memOp, `wbOp
      ensures Valid() && (Snapshot(), offered) == MemStage(old(Snapshot()), accept)
    {
      hide Bypassed, DataPacket, DynamicBranchPredictor.Value;
      if memOp.None? {
        return None;
      }
      var op := memOp.value;
      if !op.isMem {
        memOp := None;
        wbOp := Some(op);
        return None;
      }
      op := BypassStore(op);
      if !op.memTried {
        var pkt := DataPacket(op);
        memOp := Some(op.(readyForNextStage := false, memTried := true, memPkt := pkt, waitOnPktIssue := !accept));
        return pkt;
      }
      if op.waitOnPktIssue {
        memOp := Some(op.(waitOnPktIssue := !accept));
        return op.memPkt;
      }
      if !op.readyForNextStage {
        memOp := Some(op);
        return None;
      }
      memOp := None;
      wbOp := Some(op);
      return None;
    }

    // ---------------------------------------------------------------- execute

    /** The result of an op of opcode SPECIAL; encodings that have none keep the
        value in the op. */
    method SpecialResult(op: Op) returns (value: Word)
      ensures value == SpecialValue(m, op, hi, lo)
    {
      var a, b := op.src1Value, op.src2Value;
      value := op.dstValue;
      match op.subop {
        case 0x00 => value := ShiftLeft(b, op.shamt);
        case 0x04 => value := VariableShift(m, Sll, b, a);
        case 0x02 => value := ShiftRightLogical(b, op.shamt);
        case 0x06 => value := VariableShift(m, Srl, b, a);
        case 0x03 => value := ShiftRightArithmetic(b, op.shamt);
        case 0x07 => value := VariableShift(m, Sra, b, a);
        case 0x08 => value := Wrap(op.pc + 4);
        case 0x09 => value := Wrap(op.pc + 4);
        case 0x10 => value := hi;
        case 0x12 => value := lo;
        case 0x20 => value := Wrap(a as int + b);
        case 0x21 => value := Wrap(a as int + b);
        case 0x22 => value := Wrap(a as int - b);
        case 0x23 => value := Wrap(a as int - b);
        case 0x24 => value := BitwiseWord(And, a, b);
        case 0x25 => value := BitwiseWord(Or, a, b);
        case 0x27 => value := BitwiseWord(Nor, a, b);
        case 0x26 => value := BitwiseWord(Xor, a, b);
        case 0x2A => value := if Signed(a) < Signed(b) then 1 else 0;
        case 0x2B => value := if a < b then 1 else 0;
        case _ =>
      }
    }

    /** What an op of opcode SPECIAL does to HI and LO. */
    method WriteHiLo(op: Op)
      modifies `hi, `lo
      ensures (hi, lo) == SpecialHiLo(m, op, old(hi), old(lo))
    {
      var a, b := op.src1Value, op.src2Value;
      match op.subop {
        case 0x18 => hi, lo := Product(true, a, b).0, Product(true, a, b).1;
        case 0x19 => hi, lo := Product(false, a, b).0, Product(false, a, b).1;
        case 0x1A =>
          if b != 0 {
            if Signed(a) == -0x8000_0000 && Signed(b) == -1 {
              hi, lo := m.overflowDiv.0, m.overflowDiv.1;
            } else {
              lo := Wrap(TruncDiv(Signed(a), Signed(b)));
              hi := Wrap(TruncRem(Signed(a), Signed(b)));
            }
          } else {
            hi, lo := 0, 0;
          }
        case 0x1B =>
          if b != 0 {
            hi := Wrap(a % b);
            lo := Wrap(a / b);
          } else {
            hi, lo := 0, 0;
          }
        case 0x11 => hi := a;
        case 0x13 => lo := a;
        case _ =>
      }
    }

    /** Whether a branch is taken: decided already, or by its condition. */
    method ResolveCondition(op: Op) returns (taken: bool)
      ensures taken == (op.branchTaken || Condition(op))
    {
      var a, b := op.src1Value, op.src2Value;
      taken := op.branchTaken;
      match op.opcode {
        case 0x01 =>
          match op.subop {
            case 0x00 => if Signed(a) < 0 { taken := true; }
            case 0x10 => if Signed(a) < 0 { taken := true; }
            case 0x01 => if Signed(a) >= 0 { taken := true; }
            case 0x11 => if Signed(a) >= 0 { taken := true; }
            case _ =>
          }
        case 0x04 => if a == b { taken := true; }
        case 0x05 => if a != b { taken := true; }
        case 0x06 => if Signed(a) <= 0 { taken := true; }
        case 0x07 => if Signed(a) > 0 { taken := true; }
        case _ =>
      }
    }

    method ImmediateResult(op: Op) returns (value: Word)
      requires IsImmediate(op)
      ensures value == ImmediateValue(op)
    {
      var a := op.src1Value;
      match op.opcode {
        case 0x08 => value := Wrap(a as int + op.seImm16);
        case 0x09 => value := Wrap(a as int + op.seImm16);
        case 0x0A => value := if Signed(a) < Signed(op.seImm16) then 1 else 0;
        case 0x0B => value := if a < op.seImm16 then 1 else 0;
        case 0x0C => value := BitwiseWord(And, a, op.imm16);
        case 0x0D => value := BitwiseWord(Or, a, op.imm16);
        case 0x0E => value := BitwiseWord(Xor, a, op.imm16);
        case _ => value := Wrap(op.imm16 as int * 0x1_0000);
      }
    }

    /** Executes an op of any opcode but SPECIAL. */
    method ExecutePlain(op: Op) returns (r: Op)
      ensures r == ExecPlain(op)
    {
      hide Condition, ImmediateValue, IsImmediate, IsLoad, IsStore;
      var taken, ready, value, address := op.branchTaken, op.dstReady, op.dstValue, op.memAddr;
      taken := ResolveCondition(op);
      if IsImmediate(op) {
        ready := true;
        value := ImmediateResult(op);
      }
      if IsLoad(op) || IsStore(op) {
        address := Wrap(op.src1Value as int + op.seImm16);
      }
      r := op.(branchTaken := taken, dstReady := ready, dstValue := value, memAddr := address);
    }

    method ReadSources(op: Op) returns (r: Op, ready: bool)
      requires Valid()
      ensures ready <==> !GetRegisterState(Snapshot(), op.src1).NotReady? &&
                         (IsStore(op) || !GetRegisterState(Snapshot(), op.src2).NotReady?)
      ensures var op1 := TakeSource1(op, GetRegisterState(Snapshot(), op.src1));
              r == if GetRegisterState(Snapshot(), op.src1).NotReady? then op
                   else if IsStore(op) then op1
                   else TakeSource2(op1, GetRegisterState(Snapshot(), op.src2))
    {
      hide DynamicBranchPredictor.Value;
      r := op;
      var state1 := RegisterStateOf(op.src1);
      if state1.NotReady? {
        return r, false;
      }
      if state1.Ready? {
        r := r.(src1Value := state1.value);
      }
      if !StoreOpcode(op.opcode) {
        var state2 := RegisterStateOf(op.src2);
        if state2.NotReady? {
          return r, false;
        }
        if state2.Ready? {
          r := r.(src2Value := state2.value);
        }
      }
      return r, true;
    }

    /** The value of a register for the op in execute, forwarded if possible. */
    function RegisterStateOf(r: RegId): (st: RegisterState)
      requires Valid()
      reads this, bp, bp.btb, bp.ras, regs
      ensures st == GetRegisterState(Snapshot(), r)
    {
      if r == 0 then Ready(0)
      else if r == -1 then NotApplicable
      else
        var mem := StageForwarding(memOp, r);
        if mem != NotApplicable then mem
        else
          var wb := StageForwarding(wbOp, r);
          if wb != NotApplicable then wb else Ready(regs[r])
    }

    /** Checks a branch that is not yet resolved against the op behind it. */
    method ResolveBranchOp(op: Op)
      requires Valid()
      modifies `recover, `recoverDest, `flush, bp.btb
      ensures Valid() && Snapshot() == ResolveBranch(old(Snapshot()), op)
    {
      hide Update;
      if op.isBranch && op.branchDest != 0 {
        var target := if op.branchTaken then op.branchDest else Wrap(op.pc as int + 4);
        var nextOp := if decodeOp.Some? then decodeOp else fetchOp;
        var nextPc := if nextOp.Some? then nextOp.value.pc else pc;
        if nextPc != target {
          PipeRecover(FlushExecute, target);
        }
        bp.Update(op.pc, op.branchTaken, target);
      }
    }

    /** Executes an op; of the state only HI and LO change. */
    method ExecuteOp(op: Op) returns (r: Op)
      modifies `hi, `lo
      ensures Alu3(r, hi, lo) == ExecOp(m, op, old(hi), old(lo))
    {
      hide SpecialValue, SpecialHiLo, SpecialStall, ExecPlain, IsJumpReg;
      if op.opcode == OP_SPECIAL {
        var value := SpecialResult(op);
        WriteHiLo(op);
        r := op.(dstReady := true, dstValue := value,
                 branchDest := if IsJumpReg(op) then op.src1Value else op.branchDest,
                 branchTaken := IsJumpReg(op) || op.branchTaken,
                 stall := SpecialStall(op));
      } else {
        r := ExecutePlain(op);
      }
    }

    /** The part of the execute stage after the operands are read. */
    method FinishExecute(op: Op)
      requires Valid()
      modifies `executeOp, `memOp, `hi, `lo, `recover, `recoverDest, `flush, bp.btb
      ensures Valid() && Snapshot() == ExecuteReady(m, old(Snapshot()), op)
    {
      hide ExecOp, ResolveBranch, WaitsForHiLo, DynamicBranchPredictor.Value;
      if WaitsForHiLo(op) {
        executeOp := Some(op.(dstReady := true));
        return;
      }
      var r := ExecuteOp(op);
      ResolveBranchOp(r);
      executeOp := None;
      memOp := Some(r);
    }

    method PipeStageExecute()
      requires Valid()
      modifies `executeOp, `memOp, `hi, `lo, `recover, `recoverDest, `flush, bp.btb
      ensures Valid() && Snapshot() == ExecuteStage(m, old(Snapshot()))
    {
      hide GetRegisterState, ExecuteReady, TakeSource1, DynamicBranchPredictor.Value, StoreOpcode;
      if executeOp.Some? && executeOp.value.stall > 0 {
        executeOp := Some(executeOp.value.(stall := executeOp.value.stall - 1));
      }
      if memOp.Some? || executeOp.None? {
        return;
      }
      ghost var s := Snapshot();
      assert s == TickStall(old(Snapshot()));
      TakingKeeps(s.executeOp.value, GetRegisterState(s, s.executeOp.value.src1));
      var op, ready := ReadSources(executeOp.value);
      if !ready {
        executeOp := Some(op);
        return;
      }
      FinishExecute(op);
    }

    // ----------------------------------------------------------------- decode

    /** The registers that the instruction names. */
    method DecodeRegisters(op: Op) returns (src1: RegId, src2: RegId, dst: RegId)
      ensures var r := DecodeFields(op); (src1, src2, dst) == (r.src1, r.src2, r.dst)
    {
      hide DecodeFields, Opcode, Rs, Rt, Rd, Sa, Funct, Imm, Index, SignExtend16;
      DecodedRegisters(op);
      var w := op.instruction;
      src1, src2, dst := op.src1, op.src2, op.dst;
      match Opcode(w) {
        case 0x00 =>
          src1, src2, dst := Rs(w), Rt(w), Rd(w);
          if Funct(w) == SUBOP_SYSCALL {
            src1, src2 := 2, 3;
          }
        case 0x01 =>
          src1, src2 := Rs(w), Rt(w);
          if Rt(w) == BROP_BLTZAL || Rt(w) == BROP_BGEZAL {
            dst := 31;
          }
        case 0x03 => dst := 31;
        case _ =>
          if OP_BEQ <= Opcode(w) <= OP_BGTZ || StoreOpcode(Opcode(w)) {
            src1, src2 := Rs(w), Rt(w);
          } else if OP_ADDI <= Opcode(w) <= OP_LUI || LoadOpcode(Opcode(w)) {
            src1, dst := Rs(w), Rt(w);
          }
      }
    }

    /** What the instruction says about a branch. */
    method DecodeControl(op: Op) returns (isBranch: bool, cond: bool, dest: Word, taken: bool)
      ensures var r := DecodeFields(op);
              (isBranch, cond, dest, taken) == (r.isBranch, r.branchCond, r.branchDest, r.branchTaken)
    {
      hide DecodeFields, Opcode, Rs, Rt, Rd, Sa, Funct, Imm, Index, SignExtend16, JumpTarget, BranchTarget;
      DecodedControl(op);
      var w := op.instruction;
      isBranch, cond, dest, taken := op.isBranch, op.branchCond, op.branchDest, op.branchTaken;
      match Opcode(w) {
        case 0x00 =>
          if Funct(w) == SUBOP_JR || Funct(w) == SUBOP_JALR {
            isBranch, cond := true, false;
          }
        case 0x02 => isBranch, cond, dest, taken := true, false, JumpTarget(op.pc, Index(w)), true;
        case 0x03 => isBranch, cond, dest, taken := true, false, JumpTarget(op.pc, Index(w)), true;
        case _ =>
          if ConditionalOpcode(Opcode(w)) {
            isBranch, cond, dest := true, true, BranchTarget(op.pc, SignExtend16(Imm(w)));
          }
      }
    }

    /** Fills in the fields of an op from its instruction word. */
    method DecodeOp(op: Op) returns (r: Op)
      ensures r == DecodeFields(op)
    {
      hide DecodeFields, Links31, LoadOpcode, StoreOpcode;
      DecodedRest(op);
      LoadIsNoStore(Opcode(op.instruction));
      var w := op.instruction;
      var opcode := Opcode(w);
      var subop, value, ready, isMem, memWrite := op.subop, op.dstValue, op.dstReady, op.isMem, op.memWrite;
      var src1, src2, dst := DecodeRegisters(op);
      var isBranch, cond, dest, taken := DecodeControl(op);
      if opcode == OP_SPECIAL {
        subop := Funct(w);
      } else if opcode == OP_BRSPEC {
        subop := Rt(w);
      }
      if Links31(w) {
        value, ready := Wrap(op.pc as int + 4), true;
      }
      if LoadOpcode(opcode) {
        isMem, memWrite := true, false;
      } else if StoreOpcode(opcode) {
        isMem, memWrite := true, true;
      }
      r := op.(opcode := opcode, imm16 := Imm(w), seImm16 := SignExtend16(Imm(w)), shamt := Sa(w), subop := subop,
               src1 := src1, src2 := src2, dst := dst, dstValue := value, dstReady := ready,
               isBranch := isBranch, branchCond := cond, branchDest := dest, branchTaken := taken,
               isMem := isMem, memWrite := memWrite);
    }

    /** Redirects fetch unless the op in fetch is already at `dest`. */
    method RedirectFetch(dest: Word)
      requires Valid()
      modifies `recover, `recoverDest, `flush, `crashed
      ensures Valid() && Snapshot() == Redirect(old(Snapshot()), dest)
    {
      hide DynamicBranchPredictor.Value;
      if fetchOp.None? {
        crashed := true;
      } else if fetchOp.value.pc != dest {
        PipeRecover(FlushDecode, dest);
      }
    }

    /** Resolves a jump, predicts a conditional branch, or pops the return stack. */
    method PredictBranch(op: Op) returns (r: Op)
      requires Valid()
      modifies `recover, `recoverDest, `flush, `crashed, bp, bp.btb
      ensures Valid() && (Snapshot(), r) == DecodeBranch(old(Snapshot()), op)
    {
      hide DynamicBranchPredictor.Value, Redirect, Update, PopRas, Funct, PredictTaken;
      r := op;
      if op.branchDest != 0 {
        if op.branchCond {
          var predictedTaken := bp.PredictTaken(op.pc);
          if predictedTaken {
            RedirectFetch(op.branchDest);
          }
        } else {
          RedirectFetch(op.branchDest);
          bp.Update(op.pc, true, op.branchDest);
          r := r.(branchDest := 0);
        }
      } else if Funct(op.instruction) == SUBOP_JALR {
        var predicted := bp.PopRAS();
        if predicted != 0 {
          RedirectFetch(predicted);
        }
      }
    }

    method PipeStageDecode()
      requires Valid()
      modifies `decodeOp, `executeOp, `recover, `recoverDest, `flush, `crashed, bp, bp.btb, bp.ras
      ensures Valid() && Snapshot() == DecodeStage(old(Snapshot()))
    {
      hide DynamicBranchPredictor.Value, DecodeFields, DecodeBranch, PushRas;
      if executeOp.Some? || decodeOp.None? {
        return;
      }
      var op := DecodeOp(decodeOp.value);
      decodeOp := None;
      if op.opcode == OP_JAL {
        bp.PushRAS(Wrap(op.pc as int + 4));
      }
      if op.isBranch {
        op := PredictBranch(op);
      }
      executeOp := Some(op);
    }

    // ------------------------------------------------------------------ fetch

    /** `accept` is what instruction memory answers to the request offered. */
    method PipeStageFetch(accept: bool) returns (offered: Option<Packet>)
      requires Valid()
      modifies `fetchOp, `decodeOp, `pc
      ensures Valid() && (Snapshot(), offered) == FetchStage(old(Snapshot()), accept)
    {
      hide DynamicBranchPredictor.Value, StartFetch;
      if decodeOp.Some? {
        return None;
      }
      if fetchOp.Some? {
        if !fetchOp.value.isFetchIssued {
          offered := Some(FetchPacketFor(fetchOp.value.pc));
          fetchOp := Some(fetchOp.value.(isFetchIssued := accept));
          return;
        }
        if !fetchOp.value.readyForNextStage {
          return None;
        }
        decodeOp := fetchOp;
        fetchOp := None;
      }
      offered := StartFetchOp(accept);
    }

    /** Starts the fetch at `pc`, and moves `pc` on as predicted. */
    method StartFetchOp(accept: bool) returns (offered: Option<Packet>)
      requires Valid()
      modifies `fetchOp, `pc
      ensures Valid() && (Snapshot(), offered) == StartFetch(old(Snapshot()), accept)
    {
      hide DynamicBranchPredictor.Value, PredictorSpec.GetTarget;
      offered := Some(FetchPacketFor(pc));
      fetchOp := Some(NewOp(pc).(isFetchIssued := accept));
      var target := bp.GetTarget(pc);
      if target == MISS {
        pc := Wrap(pc as int + 4);
      } else {
        pc := target;
      }
    }

    // ------------------------------------------------------------------ cycle

    /** Applies the scheduled recovery. */
    method Recover()
      requires Valid()
      modifies `fetchOp, `decodeOp, `executeOp, `pc, `recover, `recoverDest, `flush
      ensures Valid() && Snapshot() == Recovered(old(Snapshot()))
    {
      hide DynamicBranchPredictor.Value;
      if recover {
        pc := recoverDest;
        match flush {
          case FlushExecute => executeOp, decodeOp, fetchOp := None, None, None;
          case FlushDecode => decodeOp, fetchOp := None, None;
          case NoFlush =>
        }
        recover, recoverDest, flush := false, 0, NoFlush;
      }
    }

    /** One clock cycle. */
    method PipeCycle(acceptData: bool, acceptInst: bool) returns (data: Option<Packet>, inst: Option<Packet>)
      requires Valid()
      modifies this, bp, bp.btb, bp.ras, regs
      ensures Valid() && CycleResult(Snapshot(), data, inst) == Cycle(m, old(Snapshot()), acceptData, acceptInst)
    {
      hide *;
      SnapshotRun();
      CycleIs(m, Snapshot(), acceptData, acceptInst);
      PipeStageWb();
      SnapshotRun();
      if !run {
        return None, None;
      }
      data := PipeStageMem(acceptData);
      PipeStageExecute();
      PipeStageDecode();
      inst := PipeStageFetch(acceptInst);
      Recover();
    }

    // -------------------------------------------------------------- responses

    /** A reply from memory. */
    method RecvResp(pkt: Packet)
      requires Valid() && (!pkt.isWrite ==> |pkt.data| == pkt.size)
      modifies `fetchOp, `memOp, `crashed
      ensures Valid() && Snapshot() == PipeSpec.RecvResp(old(Snapshot()), pkt)
    {
      hide DynamicBranchPredictor.Value, WordOf, Extract;
      match pkt.ptype {
        case FetchPacket =>
          if !pkt.isWrite && fetchOp.Some? && fetchOp.value.pc == pkt.addr && pkt.size == 4 {
            fetchOp := Some(fetchOp.value.(instruction := WordOf(pkt.data), readyForNextStage := true));
          }
        case LoadPacket =>
          if pkt.isWrite || memOp.None? {
            crashed := true;
          } else {
            memOp := Some(LoadReply(memOp.value, pkt));
          }
        case StorePacket =>
          if memOp.Some? && memOp.value.memAddr == pkt.addr {
            memOp := Some(memOp.value.(readyForNextStage := true));
          } else {
            crashed := true;
          }
        case WriteBackPacket =>
        case PrefetchPacket => crashed := true;
      }
    }
  }

  /** A cycle as the sequence of its stages. */
  lemma CycleIs(m: Machine, s: Pipe, acceptData: bool, acceptInst: bool)
    ensures var s1 := WbStage(s);
            var (s2, data) := MemStage(s1, acceptData);
            var (s5, inst) := FetchStage(DecodeStage(ExecuteStage(m, s2)), acceptInst);
            Cycle(m, s, acceptData, acceptInst) ==
              if !s1.run then CycleResult(s1, None, None) else CycleResult(Recovered(s5), data, inst)
  {
    hide WbStage, MemStage, FetchStage, DecodeStage, ExecuteStage, Recovered;
  }

  lemma LoadIsNoStore(c: nat)
    ensures !(LoadOpcode(c) && StoreOpcode(c))
  {
  }

  lemma DecodedRegisters(op: Op)
    ensures var d := DecodeFields(op);
            var w := op.instruction;
            var c := Opcode(w);
            && d.src1 == (if c == OP_SPECIAL then (if Funct(w) == SUBOP_SYSCALL then 2 else Rs(w))
                          else if ConditionalOpcode(c) || ImmediateOpcode(c) || LoadOpcode(c) || StoreOpcode(c) then
                            Rs(w)
                          else op.src1)
            && d.src2 == (if c == OP_SPECIAL then (if Funct(w) == SUBOP_SYSCALL then 3 else Rt(w))
                          else if ConditionalOpcode(c) || StoreOpcode(c) then Rt(w) else op.src2)
            && d.dst == (if c == OP_SPECIAL then Rd(w) else if Links31(w) then 31
                         else if ImmediateOpcode(c) || LoadOpcode(c) then Rt(w) else op.dst)
  {
    hide Opcode, Rs, Rt, Rd, Sa, Funct, Imm, Index, SignExtend16, Wrap, LoadOpcode, StoreOpcode, ConditionalOpcode,
         JumpOpcode, ImmediateOpcode, RegisterJump, Links31;
  }

  lemma DecodedControl(op: Op)
    ensures var d := DecodeFields(op);
            var w := op.instruction;
            var c := Opcode(w);
            && d.isBranch == (ConditionalOpcode(c) || JumpOpcode(c) || RegisterJump(w) || op.isBranch)
            && d.branchCond == (ConditionalOpcode(c) || (op.branchCond && !JumpOpcode(c) && !RegisterJump(w)))
            && d.branchDest == (if ConditionalOpcode(c) then BranchTarget(op.pc, SignExtend16(Imm(w)))
                                else if JumpOpcode(c) then JumpTarget(op.pc, Index(w)) else op.branchDest)
            && d.branchTaken == (JumpOpcode(c) || op.branchTaken)
  {
    hide Opcode, Rs, Rt, Rd, Sa, Funct, Imm, Index, SignExtend16, LoadOpcode, StoreOpcode, ConditionalOpcode,
         JumpOpcode, ImmediateOpcode, RegisterJump, Links31;
  }

  /** What decode does beside the register and branch fields. */
  lemma DecodedRest(op: Op)
    ensures var d := DecodeFields(op);
            var w := op.instruction;
            var c := Opcode(w);
            && d.subop == (if c == OP_SPECIAL then Funct(w) else if c == OP_BRSPEC then Rt(w) else op.subop)
            && d.dstValue == (if Links31(w) then Wrap(op.pc + 4) else op.dstValue)
               && d.dstReady == (Links31(w) || op.dstReady)
            && d.isMem == (LoadOpcode(c) || StoreOpcode(c) || op.isMem)
            && d.memWrite == (StoreOpcode(c) || (op.memWrite && !LoadOpcode(c)))
            && d == op.(opcode := c, imm16 := Imm(w), seImm16 := SignExtend16(Imm(w)), shamt := Sa(w), subop := d.subop,
                        src1 := d.src1, src2 := d.src2, dst := d.dst, dstValue := d.dstValue, dstReady := d.dstReady,
                        isBranch := d.isBranch, branchCond := d.branchCond, branchDest := d.branchDest,
                        branchTaken := d.branchTaken,
                        isMem := d.isMem, memWrite := d.memWrite)
  {
    hide Opcode, Rs, Rt, Rd, Sa, Funct, Imm, Index, SignExtend16, Wrap, LoadOpcode, StoreOpcode, ConditionalOpcode,
         JumpOpcode, ImmediateOpcode, RegisterJump, Links31;
  }

  lemma TakingKeeps(op: Op, st: RegisterState)
    ensures TakeSource1(op, st).src2 == op.src2 && IsStore(TakeSource1(op, st)) == IsStore(op)
  {
  }
}
