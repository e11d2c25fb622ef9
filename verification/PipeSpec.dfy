/** The five-stage pipeline as a transition function on values. One function
    per stage of `PipeState`; a request to memory is returned as the packet
    offered, and whether the memory takes it is an argument. */
module PipeSpec {
  import opened Words
  import opened Isa
  import opened Packets
  import opened PredictorSpec

  type RegId = x: int | -1 <= x < 32 witness -1

  datatype Op = Op(
    pc: Word, instruction: Word,
    opcode: nat, subop: nat, imm16: Word, seImm16: Word, shamt: nat,
    src1: RegId, src2: RegId, src1Value: Word, src2Value: Word,
    isMem: bool, memAddr: Word, memWrite: bool, memValue: Word,
    dst: RegId, dstValue: Word, dstReady: bool,
    isBranch: bool, branchDest: Word, branchCond: bool, branchTaken: bool,
    stall: nat,
    isFetchIssued: bool,
    waitOnPktIssue: bool, memTried: bool, memPkt: Option<Packet>,
    readyForNextStage: bool)

  datatype Flush = NoFlush | FlushDecode | FlushExecute

  datatype Pipe = Pipe(
    fetchOp: Option<Op>, decodeOp: Option<Op>, executeOp: Option<Op>, memOp: Option<Op>, wbOp: Option<Op>,
    regs: Regs, hi: Word, lo: Word, pc: Word,
    recover: bool, recoverDest: Word, flush: Flush,
    run: bool, retired: nat,
    bp: Predictor,
    crashed: bool)

  /** The program and what the C++ compiler makes of the two expressions that
      the language leaves undefined: a shift by 32 or more, and INT_MIN / -1. */
  datatype Machine = Machine(
    text: Text,
    wideShift: (ShiftFn, Word, Word) -> Word,
    overflowDiv: (Word, Word))

  const OP_SPECIAL := 0x00
  const OP_BRSPEC := 0x01
  const OP_J := 0x02
  const OP_JAL := 0x03
  const OP_BEQ := 0x04
  const OP_BNE := 0x05
  const OP_BLEZ := 0x06
  const OP_BGTZ := 0x07
  const OP_ADDI := 0x08
  const OP_ADDIU := 0x09
  const OP_SLTI := 0x0A
  const OP_SLTIU := 0x0B
  const OP_ANDI := 0x0C
  const OP_ORI := 0x0D
  const OP_XORI := 0x0E
  const OP_LUI := 0x0F
  const OP_LB := 0x20
  const OP_LH := 0x21
  const OP_LW := 0x23
  const OP_LBU := 0x24
  const OP_LHU := 0x25
  const OP_SB := 0x28
  const OP_SH := 0x29
  const OP_SW := 0x2B

  const SUBOP_SLL := 0x00
  const SUBOP_SRL := 0x02
  const SUBOP_SRA := 0x03
  const SUBOP_SLLV := 0x04
  const SUBOP_SRLV := 0x06
  const SUBOP_SRAV := 0x07
  const SUBOP_JR := 0x08
  const SUBOP_JALR := 0x09
  const SUBOP_SYSCALL := 0x0C
  const SUBOP_MFHI := 0x10
  const SUBOP_MTHI := 0x11
  const SUBOP_MFLO := 0x12
  const SUBOP_MTLO := 0x13
  const SUBOP_MULT := 0x18
  const SUBOP_MULTU := 0x19
  const SUBOP_DIV := 0x1A
  const SUBOP_DIVU := 0x1B
  const SUBOP_ADD := 0x20
  const SUBOP_ADDU := 0x21
  const SUBOP_SUB := 0x22
  const SUBOP_SUBU := 0x23
  const SUBOP_AND := 0x24
  const SUBOP_OR := 0x25
  const SUBOP_XOR := 0x26
  const SUBOP_NOR := 0x27
  const SUBOP_SLT := 0x2A
  const SUBOP_SLTU := 0x2B

  const BROP_BLTZ := 0x00
  const BROP_BGEZ := 0x01
  const BROP_BLTZAL := 0x10
  const BROP_BGEZAL := 0x11

  /** A zeroed op with no registers, about to be fetched from `pc`. */
  function NewOp(pc: Word): Op {
    Op(pc, 0, 0, 0, 0, 0, 0, -1, -1, 0, 0, false, 0, false, 0, -1, 0, false, false, 0, false, false, 0,
       false, false, false, None, false)
  }

  function FetchPacketFor(pc: Word): Packet {
    Packet(false, FetchPacket, pc, 4, [0, 0, 0, 0])
  }

  function Start(bp: Predictor): Pipe {
    Pipe(None, None, None, None, None, seq(32, _ => 0), 0, 0, 0x0040_0000, false, 0, NoFlush, true, 0, bp, false)
  }

  predicate StoreOpcode(c: nat) {
    c == OP_SW || c == OP_SH || c == OP_SB
  }

  predicate LoadOpcode(c: nat) {
    c == OP_LW || c == OP_LH || c == OP_LHU || c == OP_LB || c == OP_LBU
  }

  predicate IsStore(op: Op) {
    StoreOpcode(op.opcode)
  }

  predicate IsLoad(op: Op) {
    LoadOpcode(op.opcode)
  }

  predicate IsExitOp(op: Op) {
    op.opcode == OP_SPECIAL && op.subop == SUBOP_SYSCALL && op.src1Value == 0xA
  }

  /** Schedules a recovery unless an older op has already asked for one. */
  function PipeRecover(s: Pipe, flush: Flush, dest: Word): Pipe {
    if s.recover then s else s.(recover := true, flush := flush, recoverDest := dest)
  }

  // --------------------------------------------------------------- write back

  function Retire(regs: Regs, op: Op): Regs {
    if op.dst != -1 && op.dst != 0 then regs[op.dst := op.dstValue] else regs
  }

  function WbStage(s: Pipe): Pipe {
    match s.wbOp
    case None => s
    case Some(op) =>
      var s1 := s.(wbOp := None, regs := Retire(s.regs, op), retired := s.retired + 1);
      if IsExitOp(op) then s1.(pc := op.pc, run := false) else s1
  }

  // ------------------------------------------------------------------- memory

  /** The value a store takes in this stage: from `wb` when it writes the
      register, else from the register file. */
  function StoreValue(s: Pipe, op: Op): Word
    requires op.src2 >= 0
  {
    if s.wbOp.Some? && op.src2 == s.wbOp.value.dst then s.wbOp.value.dstValue else s.regs[op.src2]
  }

  function Bypassed(s: Pipe, op: Op): Op {
    if IsStore(op) && op.src2 >= 0 then op.(memValue := StoreValue(s, op), src2Value := StoreValue(s, op)) else op
  }

  /** The request of a load or store. */
  function DataPacket(op: Op): Option<Packet> {
    if IsLoad(op) then Some(Packet(false, LoadPacket, op.memAddr / 4 * 4, 4, [0, 0, 0, 0]))
    else if op.opcode == OP_SB then
      Some(Packet(true, StorePacket, op.memAddr, 1, [ByteOf(op.memValue, 0)]))
    else if op.opcode == OP_SH then
      Some(Packet(true, StorePacket, op.memAddr, 2, [ByteOf(op.memValue, 0), ByteOf(op.memValue, 1)]))
    else if op.opcode == OP_SW then
      Some(Packet(true, StorePacket, op.memAddr, 4,
                  [ByteOf(op.memValue, 0), ByteOf(op.memValue, 1), ByteOf(op.memValue, 2), ByteOf(op.memValue, 3)]))
    else op.memPkt
  }

  /** The state after the memory stage and the packet offered to data memory. */
  function MemStage(s: Pipe, accept: bool): (Pipe, Option<Packet>) {
    match s.memOp
    case None => (s, None)
    case Some(op0) =>
      if !op0.isMem then (s.(memOp := None, wbOp := Some(op0)), None)
      else
        var op := Bypassed(s, op0);
        if !op.memTried then
          var pkt := DataPacket(op);
          (s.(memOp := Some(op.(readyForNextStage := false, memTried := true, memPkt := pkt,
                            waitOnPktIssue := !accept))), pkt)
        else if op.waitOnPktIssue then (s.(memOp := Some(op.(waitOnPktIssue := !accept))), op.memPkt)
        else if !op.readyForNextStage then (s.(memOp := Some(op)), None)
        else (s.(memOp := None, wbOp := Some(op)), None)
  }

  // ------------------------------------------------------------------ execute

  datatype RegisterState = NotApplicable | Ready(value: Word) | NotReady

  function StageForwarding(stage: Option<Op>, r: RegId): RegisterState {
    if stage.Some? && stage.value.dst == r then
      if stage.value.dstReady then Ready(stage.value.dstValue) else NotReady
    else NotApplicable
  }

  function GetRegisterState(s: Pipe, r: RegId): RegisterState {
    if r == 0 then Ready(0)
    else if r == -1 then NotApplicable
    else
      var mem := StageForwarding(s.memOp, r);
      if mem != NotApplicable then mem
      else
        var wb := StageForwarding(s.wbOp, r);
        if wb != NotApplicable then wb else Ready(s.regs[r])
  }

  function TakeSource1(op: Op, st: RegisterState): Op {
    if st.Ready? then op.(src1Value := st.value) else op
  }

  function TakeSource2(op: Op, st: RegisterState): Op {
    if st.Ready? then op.(src2Value := st.value) else op
  }

  /** A shift whose amount comes from a register. */
  function VariableShift(m: Machine, sh: ShiftFn, v: Word, amount: Word): Word {
    if amount < 32 then ShiftResult(sh, v, amount) else m.wideShift(sh, v, amount)
  }

  /** HI and LO after a signed division. */
  function SignedDivision(m: Machine, a: Word, b: Word): (Word, Word) {
    if b == 0 then (0, 0)
    else if Signed(a) == -0x8000_0000 && Signed(b) == -1 then m.overflowDiv
    else (Wrap(TruncRem(Signed(a), Signed(b))), Wrap(TruncDiv(Signed(a), Signed(b))))
  }

  /** An op with HI and LO. */
  datatype Alu3 = Alu3(op: Op, hi: Word, lo: Word)

  /** MFHI, MTHI, MFLO and MTLO wait here while their own stall count lasts. */
  predicate WaitsForHiLo(op: Op) {
    op.opcode == OP_SPECIAL && op.stall > 0 &&
    (op.subop == SUBOP_MFHI || op.subop == SUBOP_MTHI || op.subop == SUBOP_MFLO || op.subop == SUBOP_MTLO)
  }

  predicate IsJumpReg(op: Op) {
    op.opcode == OP_SPECIAL && (op.subop == SUBOP_JR || op.subop == SUBOP_JALR)
  }

  /** The value an op of opcode SPECIAL sends to its destination; encodings
      with no result keep the value the op was created with. */
  function SpecialValue(m: Machine, op: Op, hi: Word, lo: Word): Word {
    var a, b := op.src1Value, op.src2Value;
    var f := op.subop;
    if f == SUBOP_SLL then ShiftLeft(b, op.shamt)
    else if f == SUBOP_SLLV then VariableShift(m, Sll, b, a)
    else if f == SUBOP_SRL then ShiftRightLogical(b, op.shamt)
    else if f == SUBOP_SRLV then VariableShift(m, Srl, b, a)
    else if f == SUBOP_SRA then ShiftRightArithmetic(b, op.shamt)
    else if f == SUBOP_SRAV then VariableShift(m, Sra, b, a)
    else if f == SUBOP_JR || f == SUBOP_JALR then Wrap(op.pc + 4)
    else if f == SUBOP_MFHI then hi
    else if f == SUBOP_MFLO then lo
    else if f == SUBOP_ADD || f == SUBOP_ADDU then Wrap(a + b)
    else if f == SUBOP_SUB || f == SUBOP_SUBU then Wrap(a - b)
    else if f == SUBOP_AND then BitwiseWord(And, a, b)
    else if f == SUBOP_OR then BitwiseWord(Or, a, b)
    else if f == SUBOP_NOR then BitwiseWord(Nor, a, b)
    else if f == SUBOP_XOR then BitwiseWord(Xor, a, b)
    else if f == SUBOP_SLT then if Signed(a) < Signed(b) then 1 else 0
    else if f == SUBOP_SLTU then if a < b then 1 else 0
    else op.dstValue
  }

  /** HI and LO after an op of opcode SPECIAL. */
  function SpecialHiLo(m: Machine, op: Op, hi: Word, lo: Word): (Word, Word) {
    var a, b := op.src1Value, op.src2Value;
    var f := op.subop;
    if f == SUBOP_MULT then (Wrap(Signed(a) * Signed(b) / 0x1_0000_0000), Wrap(Signed(a) * Signed(b)))
    else if f == SUBOP_MULTU then (Wrap(a * b / 0x1_0000_0000), Wrap(a * b))
    else if f == SUBOP_DIV then SignedDivision(m, a, b)
    else if f == SUBOP_DIVU then if b != 0 then (Wrap(a % b), Wrap(a / b)) else (0, 0)
    else if f == SUBOP_MTHI then (a, lo)
    else if f == SUBOP_MTLO then (hi, a)
    else (hi, lo)
  }

  /** The latency that a multiply or divide notes in its own op. */
  function SpecialStall(op: Op): nat {
    if op.subop == SUBOP_MULT || op.subop == SUBOP_MULTU then 4
    else if op.subop == SUBOP_DIV || op.subop == SUBOP_DIVU then 32
    else op.stall
  }

  function ExecSpecial(m: Machine, op: Op, hi: Word, lo: Word): Alu3 {
    var (h, l) := SpecialHiLo(m, op, hi, lo);
    Alu3(op.(dstReady := true, dstValue := SpecialValue(m, op, hi, lo),
         branchDest := if IsJumpReg(op) then op.src1Value else op.branchDest,
         branchTaken := IsJumpReg(op) || op.branchTaken,
         stall := SpecialStall(op)),
         h, l)
  }

  /** The condition of a conditional branch. */
  predicate Condition(op: Op) {
    var a, b := op.src1Value, op.src2Value;
    var c := op.opcode;
    if c == OP_BRSPEC then
      if op.subop == BROP_BLTZ || op.subop == BROP_BLTZAL then Signed(a) < 0
      else (op.subop == BROP_BGEZ || op.subop == BROP_BGEZAL) && Signed(a) >= 0
    else if c == OP_BEQ then a == b
    else if c == OP_BNE then a != b
    else if c == OP_BLEZ then Signed(a) <= 0
    else c == OP_BGTZ && Signed(a) > 0
  }

  predicate IsImmediate(op: Op) {
    ImmediateOpcode(op.opcode)
  }

  function ImmediateValue(op: Op): Word {
    var a := op.src1Value;
    var c := op.opcode;
    if c == OP_ADDI || c == OP_ADDIU then Wrap(a + op.seImm16)
    else if c == OP_SLTI then if Signed(a) < Signed(op.seImm16) then 1 else 0
    else if c == OP_SLTIU then if a < op.seImm16 then 1 else 0
    else if c == OP_ANDI then BitwiseWord(And, a, op.imm16)
    else if c == OP_ORI then BitwiseWord(Or, a, op.imm16)
    else if c == OP_XORI then BitwiseWord(Xor, a, op.imm16)
    else Wrap(op.imm16 * 0x1_0000)
  }

  /** The opcodes other than SPECIAL. */
  function ExecPlain(op: Op): Op {
    op.(branchTaken := op.branchTaken || Condition(op),
    dstReady := op.dstReady || IsImmediate(op),
    dstValue := if IsImmediate(op) then ImmediateValue(op) else op.dstValue,
    memAddr := if IsLoad(op) || IsStore(op) then Wrap(op.src1Value + op.seImm16) else op.memAddr)
  }

  function ExecOp(m: Machine, op: Op, hi: Word, lo: Word): Alu3 {
    if op.opcode == OP_SPECIAL then ExecSpecial(m, op, hi, lo) else Alu3(ExecPlain(op), hi, lo)
  }

  /** The pc of the op behind the one in execute. */
  function NextPc(s: Pipe): Word {
    if s.decodeOp.Some? then s.decodeOp.value.pc
    else if s.fetchOp.Some? then s.fetchOp.value.pc
    else s.pc
  }

  /** Checks a branch that is not yet resolved against the op behind it. */
  function ResolveBranch(s: Pipe, op: Op): Pipe {
    if op.isBranch && op.branchDest != 0 then
      var target := if op.branchTaken then op.branchDest else Wrap(op.pc + 4);
      var s1 := if NextPc(s) != target then PipeRecover(s, FlushExecute, target) else s;
      s1.(bp := Update(s1.bp, op.pc, op.branchTaken, target))
    else s
  }

  /** The part of the execute stage after the operands are read. */
  function ExecuteReady(m: Machine, s: Pipe, op: Op): Pipe {
    if WaitsForHiLo(op) then s.(executeOp := Some(op.(dstReady := true)))
    else
      var r := ExecOp(m, op, s.hi, s.lo);
      ResolveBranch(s.(hi := r.hi, lo := r.lo), r.op).(executeOp := None, memOp := Some(r.op))
  }

  function TickStall(s: Pipe): Pipe {
    if s.executeOp.Some? && s.executeOp.value.stall > 0 then
      s.(executeOp := Some(s.executeOp.value.(stall := s.executeOp.value.stall - 1)))
    else s
  }

  function ExecuteStage(m: Machine, s0: Pipe): Pipe {
    var s := TickStall(s0);
    if s.memOp.Some? || s.executeOp.None? then s
    else
      var op := s.executeOp.value;
      var st1 := GetRegisterState(s, op.src1);
      if st1.NotReady? then s
      else
        var op1 := TakeSource1(op, st1);
        if IsStore(op1) then ExecuteReady(m, s, op1)
        else
          var st2 := GetRegisterState(s, op1.src2);
          if st2.NotReady? then s.(executeOp := Some(op1)) else ExecuteReady(m, s, TakeSource2(op1, st2))
  }

  // ------------------------------------------------------------------- decode

  predicate ConditionalOpcode(c: nat) {
    c == OP_BRSPEC || OP_BEQ <= c <= OP_BGTZ
  }

  predicate JumpOpcode(c: nat) {
    c == OP_J || c == OP_JAL
  }

  predicate ImmediateOpcode(c: nat) {
    OP_ADDI <= c <= OP_LUI
  }

  predicate RegisterJump(w: Word) {
    Opcode(w) == OP_SPECIAL && (Funct(w) == SUBOP_JR || Funct(w) == SUBOP_JALR)
  }

  /** The instructions whose link register is 31. */
  predicate Links31(w: Word) {
    Opcode(w) == OP_JAL || (Opcode(w) == OP_BRSPEC && (Rt(w) == BROP_BLTZAL || Rt(w) == BROP_BGEZAL))
  }

  /** The fields that decode fills in from the instruction word; the others
      keep what the op was created with. */
  function DecodeFields(op: Op): Op {
    var w := op.instruction;
    var c := Opcode(w);
    var syscall := Funct(w) == SUBOP_SYSCALL;
    op.(opcode := c, imm16 := Imm(w), seImm16 := SignExtend16(Imm(w)), shamt := Sa(w),
    subop := if c == OP_SPECIAL then Funct(w) else if c == OP_BRSPEC then Rt(w) else op.subop,
    src1 := if c == OP_SPECIAL then (if syscall then 2 else Rs(w))
            else if ConditionalOpcode(c) || ImmediateOpcode(c) || LoadOpcode(c) || StoreOpcode(c) then Rs(w)
            else op.src1,
    src2 := if c == OP_SPECIAL then (if syscall then 3 else Rt(w))
            else if ConditionalOpcode(c) || StoreOpcode(c) then Rt(w)
            else op.src2,
    dst := if c == OP_SPECIAL then Rd(w)
           else if Links31(w) then 31
           else if ImmediateOpcode(c) || LoadOpcode(c) then Rt(w)
           else op.dst,
    dstValue := if Links31(w) then Wrap(op.pc + 4) else op.dstValue,
    dstReady := Links31(w) || op.dstReady,
    isBranch := ConditionalOpcode(c) || JumpOpcode(c) || RegisterJump(w) || op.isBranch,
    branchCond := ConditionalOpcode(c) || (op.branchCond && !JumpOpcode(c) && !RegisterJump(w)),
    branchDest := if ConditionalOpcode(c) then Wrap(op.pc + 4 + SignExtend16(Imm(w)) * 4)
                  else if JumpOpcode(c) then Wrap(op.pc / 0x1000_0000 * 0x1000_0000 + Index(w) * 4)
                  else op.branchDest,
    branchTaken := JumpOpcode(c) || op.branchTaken,
    isMem := LoadOpcode(c) || StoreOpcode(c) || op.isMem,
    memWrite := StoreOpcode(c) || (op.memWrite && !LoadOpcode(c)))
  }

  /** Redirects fetch to `dest` unless the op in fetch is already there. With
      nothing in fetch the source dereferences null. */
  function Redirect(s: Pipe, dest: Word): Pipe {
    if s.fetchOp.None? then s.(crashed := true)
    else if s.fetchOp.value.pc != dest then PipeRecover(s, FlushDecode, dest)
    else s
  }

  /** J and JAL are resolved here, and marked so by a zero destination; a
      conditional branch follows the direction predictor; JALR pops the
      return stack. */
  function DecodeBranch(s: Pipe, op: Op): (Pipe, Op) {
    if op.branchDest != 0 then
      if op.branchCond then (if PredictTaken(s.bp, op.pc) then Redirect(s, op.branchDest) else s, op)
      else
        var s1 := Redirect(s, op.branchDest);
        (s1.(bp := Update(s1.bp, op.pc, true, op.branchDest)), op.(branchDest := 0))
    else if Funct(op.instruction) == SUBOP_JALR then
      var (predicted, bp) := PopRas(s.bp);
      var s1 := s.(bp := bp);
      (if predicted != 0 then Redirect(s1, predicted) else s1, op)
    else (s, op)
  }

  function DecodeStage(s: Pipe): Pipe {
    if s.executeOp.Some? || s.decodeOp.None? then s
    else
      var op := DecodeFields(s.decodeOp.value);
      var s1 := s.(decodeOp := None);
      var s2 := if op.opcode == OP_JAL then s1.(bp := PushRas(s1.bp, Wrap(op.pc + 4))) else s1;
      var (s3, op3) := if op.isBranch then DecodeBranch(s2, op) else (s2, op);
      s3.(executeOp := Some(op3))
  }

  // -------------------------------------------------------------------- fetch

  function PredictedPc(bp: Predictor, pc: Word): Word {
    var target := GetTarget(bp, pc);
    if target == MISS then Wrap(pc + 4) else target
  }

  /** Starts the fetch at `s.pc`. */
  function StartFetch(s: Pipe, accept: bool): (Pipe, Option<Packet>) {
    (s.(fetchOp := Some(NewOp(s.pc).(isFetchIssued := accept)), pc := PredictedPc(s.bp, s.pc)),
     Some(FetchPacketFor(s.pc)))
  }

  function FetchStage(s: Pipe, accept: bool): (Pipe, Option<Packet>) {
    if s.decodeOp.Some? then (s, None)
    else match s.fetchOp
      case None => StartFetch(s, accept)
      case Some(op) =>
        if !op.isFetchIssued then
          (s.(fetchOp := Some(op.(isFetchIssued := accept))), Some(FetchPacketFor(op.pc)))
        else if !op.readyForNextStage then (s, None)
        else StartFetch(s.(decodeOp := Some(op), fetchOp := None), accept)
  }

  // -------------------------------------------------------------------- cycle

  /** Applies a scheduled recovery at the end of the cycle. */
  function Recovered(s: Pipe): Pipe {
    if !s.recover then s
    else
      s.(pc := s.recoverDest,
      executeOp := if s.flush == FlushExecute then None else s.executeOp,
      decodeOp := if s.flush != NoFlush then None else s.decodeOp,
      fetchOp := if s.flush != NoFlush then None else s.fetchOp,
      recover := false, recoverDest := 0, flush := NoFlush)
  }

  datatype CycleResult = CycleResult(pipe: Pipe, data: Option<Packet>, inst: Option<Packet>)

  function Cycle(m: Machine, s: Pipe, acceptData: bool, acceptInst: bool): CycleResult {
    var s1 := WbStage(s);
    if !s1.run then CycleResult(s1, None, None)
    else
      var (s2, data) := MemStage(s1, acceptData);
      var s4 := DecodeStage(ExecuteStage(m, s2));
      var (s5, inst) := FetchStage(s4, acceptInst);
      CycleResult(Recovered(s5), data, inst)
  }

  // ---------------------------------------------------------------- responses

  /** The value that load opcode `c` at address `a` takes from the aligned word. */
  function Extract(c: nat, a: Word, w: Word): Word {
    if c == OP_LW then w
    else if c == OP_LH || c == OP_LHU then
      var h := if a / 2 % 2 == 1 then w / 0x1_0000 else w % 0x1_0000;
      if c == OP_LH then SignExtend16(h) else h
    else
      var b := match a % 4
               case 0 => w % 0x100
               case 1 => w / 0x100 % 0x100
               case 2 => w / 0x1_0000 % 0x100
               case _ => w / 0x100_0000;
      if c == OP_LB then SignExtend8(b) else b
  }

  function LoadReply(op: Op, pkt: Packet): Op
    requires |pkt.data| == pkt.size
  {
    if op.memAddr / 4 * 4 == pkt.addr && pkt.size == 4 then
      op.(dstReady := true, readyForNextStage := true,
      dstValue := if IsLoad(op) then Extract(op.opcode, op.memAddr, WordOf(pkt.data)) else op.dstValue)
    else op
  }

  /** A reply from memory. It crashes on a failed assertion, and on a data
      reply when no op is in the memory stage. */
  function RecvResp(s: Pipe, pkt: Packet): Pipe
    requires !pkt.isWrite ==> |pkt.data| == pkt.size
  {
    match pkt.ptype
    case FetchPacket =>
      if !pkt.isWrite && s.fetchOp.Some? && s.fetchOp.value.pc == pkt.addr && pkt.size == 4 then
        s.(fetchOp := Some(s.fetchOp.value.(instruction := WordOf(pkt.data), readyForNextStage := true)))
      else s
    case LoadPacket =>
      if pkt.isWrite || s.memOp.None? then s.(crashed := true)
      else s.(memOp := Some(LoadReply(s.memOp.value, pkt)))
    case StorePacket =>
      if s.memOp.Some? && s.memOp.value.memAddr == pkt.addr then
        s.(memOp := Some(s.memOp.value.(readyForNextStage := true)))
      else s.(crashed := true)
    case WriteBackPacket => s
    case PrefetchPacket => s.(crashed := true)
  }
}
