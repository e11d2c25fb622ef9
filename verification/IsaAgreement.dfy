/** One op, decoded and executed with program-order operands, has exactly the
    effect that the instruction set gives to its instruction. */
module IsaAgreement {
  import opened Words
  import opened Isa
  import opened Packets
  import opened PipeSpec
  import Geometry

  /** The op at `pc` once its instruction has arrived. */
  function FetchedOp(text: Text, pc: Word): Op {
    NewOp(pc).(isFetchIssued := true, readyForNextStage := true, instruction := text(pc))
  }

  /** The op at `pc` after decode. */
  function DecodedOp(text: Text, pc: Word): Op {
    var op := DecodeFields(FetchedOp(text, pc));
    if op.isBranch && op.branchDest != 0 && !op.branchCond then op.(branchDest := 0) else op
  }

  /** The op with its operands read in program order. */
  function WithSources(op: Op, regs: Regs): Op {
    var op1 := if op.src1 == -1 then op else op.(src1Value := Read(regs, op.src1));
    if IsStore(op1) || op1.src2 == -1 then op1 else op1.(src2Value := Read(regs, op1.src2))
  }

  /** The op of the instruction at `s.pc` after the execute stage. */
  function Executed(m: Machine, s: Arch): Alu3 {
    ExecOp(m, WithSources(DecodedOp(m.text, s.pc), s.regs), s.hi, s.lo)
  }

  /** `op` carries the complete result of the instruction at `s.pc`. */
  predicate Completed(text: Text, s: Arch, op: Op) {
    && op.pc == s.pc
    && Retire(s.regs, op) == Step(text, s).regs
    && (op.dst > 0 ==> op.dstReady)
    && (IsExitOp(op) <==> Exits(text, s))
  }

  /** Where the instruction goes after an op that decode did not resolve. */
  function OpTarget(op: Op): Word {
    if op.branchTaken then op.branchDest else Wrap(op.pc + 4)
  }

  /** Executing `op` has the effect of the instruction at `s.pc`. */
  predicate OpAgrees(m: Machine, s: Arch, op: Op) {
    var r := ExecOp(m, op, s.hi, s.lo);
    var t := Step(m.text, s);
    && r.op.pc == s.pc
    && r.hi == t.hi && r.lo == t.lo
    && (!r.op.isMem ==> Completed(m.text, s, r.op) && t.mem == s.mem)
    && (r.op.isMem ==> (IsLoad(r.op) || IsStore(r.op)) && !r.op.memTried && t.pc == Wrap(s.pc + 4))
    && (r.op.isBranch && r.op.branchDest != 0 ==> t.pc == OpTarget(r.op))
  }

  /** What decode and operand read leave in an op of opcode SPECIAL. */
  predicate SpecialOperands(w: Word, s: Arch, op: Op) {
    && Opcode(w) == OP_SPECIAL
    && op.pc == s.pc && op.opcode == OP_SPECIAL && op.subop == Funct(w) && op.shamt == Sa(w) && op.dst == Rd(w)
    && op.dstValue == 0 && op.branchDest == 0 && !op.isMem && !op.branchTaken
    && (op.isBranch <==> Funct(w) == SUBOP_JR || Funct(w) == SUBOP_JALR)
    && op.src1Value == Read(s.regs, if Funct(w) == SUBOP_SYSCALL then 2 else Rs(w))
    && op.src2Value == Read(s.regs, if Funct(w) == SUBOP_SYSCALL then 3 else Rt(w))
  }

  lemma SpecialDecoded(m: Machine, s: Arch)
    requires Opcode(m.text(s.pc)) == OP_SPECIAL
    ensures SpecialOperands(m.text(s.pc), s, WithSources(DecodedOp(m.text, s.pc), s.regs))
  {
  }

  lemma ShiftsAgree(m: Machine, s: Arch, op: Op)
    requires Supported(m.text, s) && SpecialOperands(m.text(s.pc), s, op)
    requires DecodeSpecial(m.text(s.pc)).Shift?
    ensures OpAgrees(m, s, op)
  {
    hide ShiftLeft, ShiftRightLogical, ShiftRightArithmetic, Opcode, Rs, Rt, Rd, Sa, Funct, Imm, Index;
  }

  lemma VariableShiftsAgree(m: Machine, s: Arch, op: Op)
    requires Supported(m.text, s) && SpecialOperands(m.text(s.pc), s, op)
    requires DecodeSpecial(m.text(s.pc)).ShiftVar?
    ensures OpAgrees(m, s, op)
  {
    hide ShiftLeft, ShiftRightLogical, ShiftRightArithmetic, Opcode, Rs, Rt, Rd, Sa, Funct, Imm, Index;
  }

  lemma AlusAgree(m: Machine, s: Arch, op: Op)
    requires Supported(m.text, s) && SpecialOperands(m.text(s.pc), s, op)
    requires DecodeSpecial(m.text(s.pc)).Alu?
    ensures OpAgrees(m, s, op)
  {
    hide BitwiseWord, Signed, Wrap, Opcode, Rs, Rt, Rd, Sa, Funct, Imm, Index;
  }

  lemma MultsAgree(m: Machine, s: Arch, op: Op)
    requires Supported(m.text, s) && SpecialOperands(m.text(s.pc), s, op)
    requires DecodeSpecial(m.text(s.pc)).Mult?
    ensures OpAgrees(m, s, op)
  {
    hide Signed, Wrap, Opcode, Rs, Rt, Rd, Sa, Funct, Imm, Index;
  }

  lemma DivsAgree(m: Machine, s: Arch, op: Op)
    requires Supported(m.text, s) && SpecialOperands(m.text(s.pc), s, op)
    requires DecodeSpecial(m.text(s.pc)).Div?
    ensures OpAgrees(m, s, op)
  {
    hide Wrap, TruncDiv, TruncRem, Opcode, Rs, Rt, Rd, Sa, Funct, Imm, Index;
  }

  lemma MovesFromAgree(m: Machine, s: Arch, op: Op)
    requires Supported(m.text, s) && SpecialOperands(m.text(s.pc), s, op)
    requires DecodeSpecial(m.text(s.pc)).MoveFrom?
    ensures OpAgrees(m, s, op)
  {
    hide Opcode, Rs, Rt, Rd, Sa, Funct, Imm, Index;
  }

  lemma MovesToAgree(m: Machine, s: Arch, op: Op)
    requires Supported(m.text, s) && SpecialOperands(m.text(s.pc), s, op)
    requires DecodeSpecial(m.text(s.pc)).MoveTo?
    ensures OpAgrees(m, s, op)
  {
    hide Opcode, Rs, Rt, Rd, Sa, Funct, Imm, Index;
  }

  lemma JumpRegsAgree(m: Machine, s: Arch, op: Op)
    requires Supported(m.text, s) && SpecialOperands(m.text(s.pc), s, op)
    requires DecodeSpecial(m.text(s.pc)).JumpReg?
    ensures OpAgrees(m, s, op)
  {
    hide Opcode, Rs, Rt, Rd, Sa, Funct, Imm, Index;
  }

  lemma JumpRegLinksAgree(m: Machine, s: Arch, op: Op)
    requires Supported(m.text, s) && SpecialOperands(m.text(s.pc), s, op)
    requires DecodeSpecial(m.text(s.pc)).JumpRegLink?
    ensures OpAgrees(m, s, op)
  {
    hide Opcode, Rs, Rt, Rd, Sa, Funct, Imm, Index;
  }

  lemma SyscallsAgree(m: Machine, s: Arch, op: Op)
    requires Supported(m.text, s) && SpecialOperands(m.text(s.pc), s, op)
    requires DecodeSpecial(m.text(s.pc)).Syscall?
    ensures OpAgrees(m, s, op)
  {
    hide Opcode, Rs, Rt, Rd, Sa, Funct, Imm, Index;
  }

  lemma ReservedAgree(m: Machine, s: Arch, op: Op)
    requires Supported(m.text, s) && SpecialOperands(m.text(s.pc), s, op)
    requires DecodeSpecial(m.text(s.pc)).Reserved?
    ensures OpAgrees(m, s, op)
  {
    hide Opcode, Rs, Rt, Rd, Sa, Funct, Imm, Index;
  }

  /** What decode and operand read leave in an op of an immediate instruction. */
  predicate ImmediateOperands(w: Word, s: Arch, op: Op) {
    && OP_ADDI <= Opcode(w) <= OP_LUI
    && op.pc == s.pc && op.opcode == Opcode(w) && op.dst == Rt(w)
    && op.imm16 == Imm(w) && op.seImm16 == SignExtend16(Imm(w))
    && !op.isMem && !op.isBranch
    && op.src1Value == Read(s.regs, Rs(w))
  }

  lemma ImmediateDecoded(m: Machine, s: Arch)
    requires OP_ADDI <= Opcode(m.text(s.pc)) <= OP_LUI
    ensures ImmediateOperands(m.text(s.pc), s, WithSources(DecodedOp(m.text, s.pc), s.regs))
  {
  }

  lemma ImmediatesAgree(m: Machine, s: Arch, op: Op)
    requires ImmediateOperands(m.text(s.pc), s, op)
    ensures OpAgrees(m, s, op)
  {
    hide BitwiseWord, Signed, SignExtend16, Wrap, Opcode, Rs, Rt, Rd, Sa, Funct, Imm, Index;
  }

  /** What decode and operand read leave in an op of a conditional branch. */
  predicate BranchOperands(w: Word, s: Arch, op: Op) {
    && (Opcode(w) == OP_BRSPEC || OP_BEQ <= Opcode(w) <= OP_BGTZ)
    && op.pc == s.pc && op.opcode == Opcode(w)
    && (op.opcode == OP_BRSPEC ==> op.subop == Rt(w))
    && op.isBranch && !op.isMem && !op.branchTaken
    && op.branchDest == BranchTarget(s.pc, SignExtend16(Imm(w)))
    && (if Opcode(w) == OP_BRSPEC && (Rt(w) == BROP_BLTZAL || Rt(w) == BROP_BGEZAL)
        then op.dst == 31 && op.dstValue == Wrap(s.pc + 4) && op.dstReady
        else op.dst == -1)
    && op.src1Value == Read(s.regs, Rs(w)) && op.src2Value == Read(s.regs, Rt(w))
  }

  lemma BranchDecoded(m: Machine, s: Arch)
    requires Opcode(m.text(s.pc)) == OP_BRSPEC || OP_BEQ <= Opcode(m.text(s.pc)) <= OP_BGTZ
    ensures BranchOperands(m.text(s.pc), s, WithSources(DecodedOp(m.text, s.pc), s.regs))
  {
  }

  lemma RegimmAgree(m: Machine, s: Arch, op: Op)
    requires BranchOperands(m.text(s.pc), s, op) && Opcode(m.text(s.pc)) == OP_BRSPEC
    ensures OpAgrees(m, s, op)
  {
    hide Signed, SignExtend16, Wrap, Opcode, Rs, Rt, Rd, Sa, Funct, Imm, Index;
  }

  lemma BranchesAgree(m: Machine, s: Arch, op: Op)
    requires BranchOperands(m.text(s.pc), s, op) && Opcode(m.text(s.pc)) != OP_BRSPEC
    ensures OpAgrees(m, s, op)
  {
    hide Signed, SignExtend16, Wrap, Opcode, Rs, Rt, Rd, Sa, Funct, Imm, Index;
  }

  lemma JumpsAgree(m: Machine, s: Arch)
    requires Opcode(m.text(s.pc)) == OP_J || Opcode(m.text(s.pc)) == OP_JAL
    requires Supported(m.text, s)
    ensures OpAgrees(m, s, WithSources(DecodedOp(m.text, s.pc), s.regs))
  {
    hide Wrap, Opcode, Rs, Rt, Rd, Sa, Funct, Imm, Index;
  }

  /** What decode and operand read leave in an op of a load or store. */
  predicate MemoryOperands(w: Word, s: Arch, op: Op) {
    && op.pc == s.pc && op.opcode == Opcode(w) && (IsLoad(op) || IsStore(op))
    && op.isMem && !op.isBranch && !op.memTried
    && op.seImm16 == SignExtend16(Imm(w)) && op.src1Value == Read(s.regs, Rs(w))
    && (if IsLoad(op) then op.dst == Rt(w) && op.src2 == -1 else op.dst == -1 && op.src2 == Rt(w))
  }

  lemma LoadDecoded(m: Machine, s: Arch)
    requires LoadOpcode(Opcode(m.text(s.pc)))
    ensures MemoryOperands(m.text(s.pc), s, WithSources(DecodedOp(m.text, s.pc), s.regs))
  {
  }

  lemma StoreDecoded(m: Machine, s: Arch)
    requires StoreOpcode(Opcode(m.text(s.pc)))
    ensures MemoryOperands(m.text(s.pc), s, WithSources(DecodedOp(m.text, s.pc), s.regs))
  {
  }

  lemma LoadsAgree(m: Machine, s: Arch, op: Op)
    requires MemoryOperands(m.text(s.pc), s, op) && IsLoad(op)
    ensures OpAgrees(m, s, op)
  {
    hide SignExtend16, Wrap, LoadResult, StoreResult, Opcode, Rs, Rt, Rd, Sa, Funct, Imm, Index;
    assert Decode(m.text(s.pc)).Load?;
  }

  lemma StoresAgree(m: Machine, s: Arch, op: Op)
    requires MemoryOperands(m.text(s.pc), s, op) && IsStore(op)
    ensures OpAgrees(m, s, op)
  {
    hide SignExtend16, Wrap, LoadResult, StoreResult, Opcode, Rs, Rt, Rd, Sa, Funct, Imm, Index;
    assert Decode(m.text(s.pc)).Store?;
  }

  lemma OthersAgree(m: Machine, s: Arch)
    requires 16 <= Opcode(m.text(s.pc)) && Decode(m.text(s.pc)).Reserved?
    ensures OpAgrees(m, s, WithSources(DecodedOp(m.text, s.pc), s.regs))
  {
    hide Opcode, Rs, Rt, Rd, Sa, Funct, Imm, Index;
  }

  lemma SpecialKinds(w: Word)
    ensures var i := DecodeSpecial(w);
            i.Alu? || i.Shift? || i.ShiftVar? || i.Mult? || i.Div? || i.MoveFrom? || i.MoveTo? ||
            i.JumpReg? || i.JumpRegLink? || i.Syscall? || i.Reserved?
  {
  }

  lemma OtherOpcodesReserved(w: Word)
    requires 16 <= Opcode(w) && !LoadOpcode(Opcode(w)) && !StoreOpcode(Opcode(w))
    ensures Decode(w).Reserved?
  {
  }

  lemma SpecialsAgree(m: Machine, s: Arch)
    requires Supported(m.text, s) && Opcode(m.text(s.pc)) == OP_SPECIAL
    ensures OpAgrees(m, s, WithSources(DecodedOp(m.text, s.pc), s.regs))
  {
    hide *;
    var op := WithSources(DecodedOp(m.text, s.pc), s.regs);
    SpecialDecoded(m, s);
    SpecialKinds(m.text(s.pc));
    match DecodeSpecial(m.text(s.pc))
    case Alu(_, _, _, _) => AlusAgree(m, s, op);
    case Shift(_, _, _, _) => ShiftsAgree(m, s, op);
    case ShiftVar(_, _, _, _) => VariableShiftsAgree(m, s, op);
    case Mult(_, _, _) => MultsAgree(m, s, op);
    case Div(_, _, _) => DivsAgree(m, s, op);
    case MoveFrom(_, _) => MovesFromAgree(m, s, op);
    case MoveTo(_, _) => MovesToAgree(m, s, op);
    case JumpReg(_) => JumpRegsAgree(m, s, op);
    case JumpRegLink(_, _) => JumpRegLinksAgree(m, s, op);
    case Syscall => SyscallsAgree(m, s, op);
    case Reserved => ReservedAgree(m, s, op);
  }

  /** For every supported instruction, execute computes what the instruction
      set asks for: HI and LO, and the next pc of a branch, at once; the
      register result too unless it is a load or store. */
  lemma InstructionsAgree(m: Machine, s: Arch)
    requires Supported(m.text, s)
    ensures OpAgrees(m, s, WithSources(DecodedOp(m.text, s.pc), s.regs))
  {
    hide MemoryOperands, BranchOperands, ImmediateOperands, SpecialOperands, OpAgrees, Supported, Decode, DecodedOp,
         WithSources, Opcode, LoadOpcode, StoreOpcode;
    var op := WithSources(DecodedOp(m.text, s.pc), s.regs);
    var c := Opcode(m.text(s.pc));
    if c == OP_SPECIAL {
      SpecialsAgree(m, s);
    } else if c == OP_BRSPEC {
      BranchDecoded(m, s);
      RegimmAgree(m, s, op);
    } else if c == OP_J || c == OP_JAL {
      JumpsAgree(m, s);
    } else if c <= OP_BGTZ {
      BranchDecoded(m, s);
      BranchesAgree(m, s, op);
    } else if c <= OP_LUI {
      ImmediateDecoded(m, s);
      ImmediatesAgree(m, s, op);
    } else if LoadOpcode(c) {
      LoadDecoded(m, s);
      LoadsAgree(m, s, op);
    } else if StoreOpcode(c) {
      StoreDecoded(m, s);
      StoresAgree(m, s, op);
    } else {
      OtherOpcodesReserved(m.text(s.pc));
      OthersAgree(m, s);
    }
  }

  // ------------------------------------------------------------ memory access

  function AccessAddr(text: Text, s: Arch): Word {
    Wrap(Read(s.regs, Rs(text(s.pc))) + SignExtend16(Imm(text(s.pc))))
  }

  /** `op` is the executed load or store at `s.pc`. */
  predicate AccessOp(text: Text, s: Arch, op: Op) {
    var w := text(s.pc);
    && Supported(text, s)
    && op.pc == s.pc && op.opcode == Opcode(w) && (IsLoad(op) || IsStore(op)) && op.isMem
    && op.memAddr == AccessAddr(text, s)
    && (if IsLoad(op) then op.dst == Rt(w) else op.dst == -1 && op.src2 == Rt(w))
  }

  function StoreBytes(size: Size, v: Word): seq<Byte> {
    match size
    case OneByte => [ByteOf(v, 0)]
    case Half => [ByteOf(v, 0), ByteOf(v, 1)]
    case Full => [ByteOf(v, 0), ByteOf(v, 1), ByteOf(v, 2), ByteOf(v, 3)]
  }

  /** The data request of the instruction at `s.pc`. */
  function AccessOf(text: Text, s: Arch): Option<Packet> {
    var a := AccessAddr(text, s);
    match Decode(text(s.pc))
    case Load(_, _, _, _, _) => Some(Packet(false, LoadPacket, a / 4 * 4, 4, [0, 0, 0, 0]))
    case Store(size, _, rt, _) =>
      Some(Packet(true, StorePacket, a, Bytes(size), StoreBytes(size, Read(s.regs, rt))))
    case _ => None
  }

  /** Serving `pkt` on the flat memory of `s` is the memory access of the
      instruction at `s.pc`: memory becomes the next state's, and a load gets
      the word that holds its value. */
  predicate GoodAccess(text: Text, s: Arch, pkt: Packet) {
    var w := text(s.pc);
    var a := AccessAddr(text, s);
    && After(s.mem, pkt) == Step(text, s).mem
    && !Exits(text, s)
    && (if LoadOpcode(Opcode(w))
        then
          && !pkt.isWrite && pkt.ptype == LoadPacket && pkt.size == 4 && pkt.addr == a / 4 * 4
          && Step(text, s).regs == Write(s.regs, Rt(w), Extract(Opcode(w), a, WordOf(Served(s.mem, pkt).data)))
        else
          && pkt.isWrite && pkt.ptype == StorePacket && pkt.addr == a && pkt.size == |pkt.data| <= 4
          && Step(text, s).regs == s.regs)
  }

  lemma ExecutedAccess(m: Machine, s: Arch)
    requires Supported(m.text, s) && Executed(m, s).op.isMem
    ensures AccessOp(m.text, s, Executed(m, s).op)
  {
    hide Opcode, Rs, Rt, Rd, Sa, Funct, Imm, Index, Wrap, SignExtend16, Supported, SpecialValue, SpecialHiLo, Condition,
         ImmediateValue;
  }

  function SizeOf(c: nat): Size {
    if c == OP_LB || c == OP_LBU || c == OP_SB then OneByte
    else if c == OP_LH || c == OP_LHU || c == OP_SH then Half
    else Full
  }

  lemma DecodeLoad(w: Word)
    requires LoadOpcode(Opcode(w))
    ensures Decode(w) == Load(SizeOf(Opcode(w)), Opcode(w) < 0x24, Rs(w), Rt(w), SignExtend16(Imm(w)))
  {
  }

  lemma DecodeStore(w: Word)
    requires StoreOpcode(Opcode(w))
    ensures Decode(w) == Store(SizeOf(Opcode(w)), Rs(w), Rt(w), SignExtend16(Imm(w)))
  {
  }

  lemma Lanes(d: seq<Byte>)
    requires |d| == 4
    ensures var w := WordOf(d);
            && w % 0x100 == d[0] && w / 0x100 % 0x100 == d[1]
            && w / 0x1_0000 % 0x100 == d[2] && w / 0x100_0000 == d[3]
            && w % 0x1_0000 == d[0] as int + 0x100 * d[1] as int
            && w / 0x1_0000 == d[2] as int + 0x100 * d[3] as int
  {
    var d0: nat, d1: nat, d2: nat, d3: nat := d[0], d[1], d[2], d[3];
    var w: nat := WordOf(d);
    var high := d2 + 0x100 * d3;
    Geometry.DivUnique(w, 0x100, d1 + 0x100 * high, d0);
    Geometry.DivUnique(d1 + 0x100 * high, 0x100, high, d1);
    Geometry.DivUnique(w, 0x1_0000, high, d0 + 0x100 * d1);
    Geometry.DivUnique(high, 0x100, d3, d2);
    Geometry.DivUnique(w, 0x100_0000, d3, d0 + 0x100 * d1 + 0x1_0000 * d2);
  }

  /** A word is the little-endian value of its four bytes. */
  lemma BytesJoin(v: Word)
    ensures WordOf([ByteOf(v, 0), ByteOf(v, 1), ByteOf(v, 2), ByteOf(v, 3)]) == v
  {
    var q1: nat := v / 0x100;
    var q2: nat := q1 / 0x100;
    Geometry.DivUnique(v, 0x1_0000, q2, v % 0x100 + 0x100 * (q1 % 0x100));
    Geometry.DivUnique(v, 0x100_0000, q2 / 0x100, v % 0x100 + 0x100 * (q1 % 0x100) + 0x1_0000 * (q2 % 0x100));
  }

  /** Byte lane selection: what a load takes out of the aligned word is the
      little-endian value at its own address, extended as its opcode says. */
  lemma ExtractAgrees(mem: Mem, c: nat, a: Word)
    requires LoadOpcode(c) && a % Bytes(SizeOf(c)) == 0
    ensures Extract(c, a, WordOf(ReadBytes(mem, a / 4 * 4, 4))) == LoadResult(mem, SizeOf(c), c < 0x24, a)
  {
    hide SignExtend8, SignExtend16, WordOf, Get;
    var d := ReadBytes(mem, a / 4 * 4, 4);
    Lanes(d);
    var b := a / 4 * 4;
    assert d[0] == Get(mem, b) && d[1] == Get(mem, b + 1) && d[2] == Get(mem, b + 2) && d[3] == Get(mem, b + 3);
    var k := a % 4;
    assert a == b + k;
    if SizeOf(c) == Half {
      assert k == 0 || k == 2;
      assert a / 2 % 2 == k / 2;
    }
  }

  lemma LoadStep(text: Text, s: Arch)
    requires Supported(text, s) && LoadOpcode(Opcode(text(s.pc)))
    ensures var w := text(s.pc);
            var size := SizeOf(Opcode(w));
            var a := Wrap(Read(s.regs, Rs(w)) + SignExtend16(Imm(w)));
            && a % Bytes(size) == 0
            && Step(text, s).mem == s.mem
            && Step(text, s).regs == Write(s.regs, Rt(w), LoadResult(s.mem, size, Opcode(w) < 0x24, a))
            && !Exits(text, s)
  {
    DecodeLoad(text(s.pc));
    hide Opcode, Rs, Rt, Rd, Sa, Funct, Imm, Index, Wrap, SignExtend16, LoadResult, Decode, LoadOpcode, SizeOf;
  }

  lemma StoreStep(text: Text, s: Arch)
    requires Supported(text, s) && StoreOpcode(Opcode(text(s.pc)))
    ensures var w := text(s.pc);
            var a := Wrap(Read(s.regs, Rs(w)) + SignExtend16(Imm(w)));
            && Step(text, s).mem == StoreResult(s.mem, SizeOf(Opcode(w)), a, Read(s.regs, Rt(w)))
            && Step(text, s).regs == s.regs
            && !Exits(text, s)
  {
    DecodeStore(text(s.pc));
    hide Opcode, Rs, Rt, Rd, Sa, Funct, Imm, Index, Wrap, SignExtend16, StoreResult, Decode, StoreOpcode, SizeOf;
  }

  lemma LoadIsGood(text: Text, s: Arch, op: Op)
    requires AccessOp(text, s, op) && IsLoad(op)
    ensures DataPacket(op).Some? && GoodAccess(text, s, DataPacket(op).value)
    ensures DataPacket(op) == AccessOf(text, s)
  {
    LoadStep(text, s);
    DecodeLoad(text(s.pc));
    ExtractAgrees(s.mem, op.opcode, op.memAddr);
    hide Decode, Step, Supported, Exits, Opcode, Rs, Rt, Imm, Wrap, SignExtend16, Extract, WordOf, LoadResult, Get,
         SizeOf;
  }

  lemma WritesAgree(mem: Mem, a: int, v: Word)
    ensures WriteBytes(mem, a, [ByteOf(v, 0)]) == StoreResult(mem, OneByte, a, v)
    ensures WriteBytes(mem, a, [ByteOf(v, 0), ByteOf(v, 1)]) == StoreResult(mem, Half, a, v)
    ensures WriteBytes(mem, a, [ByteOf(v, 0), ByteOf(v, 1), ByteOf(v, 2), ByteOf(v, 3)])
         == StoreResult(mem, Full, a, v)
  {
    hide ByteOf;
    var d := [ByteOf(v, 0), ByteOf(v, 1), ByteOf(v, 2), ByteOf(v, 3)];
    assert d[..3] == [ByteOf(v, 0), ByteOf(v, 1), ByteOf(v, 2)];
    assert d[..3][..2] == d[..2] == [ByteOf(v, 0), ByteOf(v, 1)];
    assert d[..2][..1] == [ByteOf(v, 0)];
    assert d[..1][..0] == [];
    assert WriteBytes(mem, a, [ByteOf(v, 0)]) == mem[a := ByteOf(v, 0)];
  }

  lemma StoreIsGood(text: Text, s: Arch, op: Op)
    requires AccessOp(text, s, op) && IsStore(op) && op.memValue == Read(s.regs, Rt(text(s.pc)))
    ensures DataPacket(op).Some? && GoodAccess(text, s, DataPacket(op).value)
    ensures DataPacket(op) == AccessOf(text, s)
  {
    StoreStep(text, s);
    DecodeStore(text(s.pc));
    WritesAgree(s.mem, op.memAddr, op.memValue);
    hide Decode, Step, Supported, Exits, Opcode, Rs, Rt, Imm, Wrap, SignExtend16, StoreResult, ByteOf, WriteBytes;
  }

  /** A store is complete when its packet is served, whatever its flags. */
  lemma StoreCompletes(text: Text, s: Arch, op: Op, pkt: Packet)
    requires AccessOp(text, s, op) && IsStore(op) && GoodAccess(text, s, pkt)
    ensures Completed(text, s, op)
  {
    hide Step, Supported, Exits, Opcode, Rs, Rt, Imm, Wrap, SignExtend16, Extract, WordOf, After, Served;
  }

  /** A load is complete when it has taken the reply. */
  lemma LoadCompletes(text: Text, s: Arch, op: Op, pkt: Packet)
    requires AccessOp(text, s, op) && IsLoad(op) && GoodAccess(text, s, pkt)
    ensures var b := LoadReply(op, Served(s.mem, pkt));
            Completed(text, s, b) && AccessOp(text, s, b)
                && b == op.(dstReady := true, dstValue := b.dstValue, readyForNextStage := true)
  {
    hide Step, Supported, Exits, Opcode, Rs, Rt, Imm, Wrap, SignExtend16, Extract, WordOf, After;
  }

  /** Exactly the loads and stores have a data request. */
  lemma AccessKinds(m: Machine, s: Arch)
    ensures AccessOf(m.text, s).Some? <==> Executed(m, s).op.isMem
    ensures !Executed(m, s).op.memTried && !Executed(m, s).op.waitOnPktIssue
  {
    hide Opcode, Rs, Rt, Rd, Sa, Funct, Imm, Index, Wrap, SignExtend16, SpecialValue, SpecialHiLo, Condition,
         ImmediateValue, ByteOf, Read;
  }
}
