/** The sequential instruction set, after the instruction descriptions of
    "MIPS32 Architecture For Programmers Volume II", section 3.2, with the
    simulator's variations: no delay slots, the link address is pc + 4, ADD,
    ADDI and SUB do not trap, and a division by zero gives HI = LO = 0. */
module Isa {
  import opened Words

  type RegNum = x: int | 0 <= x < 32
  type Regs = s: seq<Word> | |s| == 32 witness seq(32, _ => 0)

  /** Data memory, one byte per address; an address never written holds 0. */
  type Mem = map<int, Byte>

  /** Instruction memory: the word at each address. */
  type Text = Word -> Word

  datatype Arch = Arch(regs: Regs, hi: Word, lo: Word, pc: Word, mem: Mem)

  // ---------------------------------------------------------------- encoding

  function Opcode(w: Word): nat { w / 0x400_0000 }
  function Rs(w: Word): RegNum { w / 0x20_0000 % 32 }
  function Rt(w: Word): RegNum { w / 0x1_0000 % 32 }
  function Rd(w: Word): RegNum { w / 0x800 % 32 }
  function Sa(w: Word): nat { w / 0x40 % 32 }
  function Funct(w: Word): nat { w % 64 }
  function Imm(w: Word): (r: Word)
    ensures r < 0x1_0000
  { w % 0x1_0000 }
  function Index(w: Word): nat { w % 0x400_0000 }

  datatype AluFn = Add | Sub | Bits(fn: BitFn) | Slt | Sltu
  datatype ShiftFn = Sll | Srl | Sra
  datatype Cond = Eq | Ne | Lez | Gtz | Ltz | Gez
  datatype Size = OneByte | Half | Full

  datatype Instr =
    | Alu(fn: AluFn, rs: RegNum, rt: RegNum, rd: RegNum)
    | AluImm(fn: AluFn, rs: RegNum, rt: RegNum, imm: Word)
    | Lui(rt: RegNum, imm: Word)
    | Shift(sh: ShiftFn, rt: RegNum, rd: RegNum, sa: nat)
    | ShiftVar(sh: ShiftFn, rs: RegNum, rt: RegNum, rd: RegNum)
    | Mult(signed: bool, rs: RegNum, rt: RegNum)
    | Div(signed: bool, rs: RegNum, rt: RegNum)
    | MoveFrom(hi: bool, rd: RegNum)
    | MoveTo(hi: bool, rs: RegNum)
    | JumpReg(rs: RegNum)
    | JumpRegLink(rs: RegNum, rd: RegNum)
    | Jump(link: bool, index: nat)
    | Branch(cond: Cond, rs: RegNum, rt: RegNum, link: bool, offset: Word)
    | Load(size: Size, signExtend: bool, base: RegNum, rt: RegNum, offset: Word)
    | Store(size: Size, base: RegNum, rt: RegNum, offset: Word)
    | Syscall
    | Reserved

  function DecodeSpecial(w: Word): Instr {
    match Funct(w)
    case 0x00 => Shift(Sll, Rt(w), Rd(w), Sa(w))
    case 0x02 => Shift(Srl, Rt(w), Rd(w), Sa(w))
    case 0x03 => Shift(Sra, Rt(w), Rd(w), Sa(w))
    case 0x04 => ShiftVar(Sll, Rs(w), Rt(w), Rd(w))
    case 0x06 => ShiftVar(Srl, Rs(w), Rt(w), Rd(w))
    case 0x07 => ShiftVar(Sra, Rs(w), Rt(w), Rd(w))
    case 0x08 => JumpReg(Rs(w))
    case 0x09 => JumpRegLink(Rs(w), Rd(w))
    case 0x0C => Syscall
    case 0x10 => MoveFrom(true, Rd(w))
    case 0x11 => MoveTo(true, Rs(w))
    case 0x12 => MoveFrom(false, Rd(w))
    case 0x13 => MoveTo(false, Rs(w))
    case 0x18 => Mult(true, Rs(w), Rt(w))
    case 0x19 => Mult(false, Rs(w), Rt(w))
    case 0x1A => Div(true, Rs(w), Rt(w))
    case 0x1B => Div(false, Rs(w), Rt(w))
    case 0x20 => Alu(Add, Rs(w), Rt(w), Rd(w))
    case 0x21 => Alu(Add, Rs(w), Rt(w), Rd(w))
    case 0x22 => Alu(Sub, Rs(w), Rt(w), Rd(w))
    case 0x23 => Alu(Sub, Rs(w), Rt(w), Rd(w))
    case 0x24 => Alu(Bits(And), Rs(w), Rt(w), Rd(w))
    case 0x25 => Alu(Bits(Or), Rs(w), Rt(w), Rd(w))
    case 0x26 => Alu(Bits(Xor), Rs(w), Rt(w), Rd(w))
    case 0x27 => Alu(Bits(Nor), Rs(w), Rt(w), Rd(w))
    case 0x2A => Alu(Slt, Rs(w), Rt(w), Rd(w))
    case 0x2B => Alu(Sltu, Rs(w), Rt(w), Rd(w))
    case _ => Reserved
  }

  function DecodeRegimm(w: Word): Instr {
    match Rt(w)
    case 0x00 => Branch(Ltz, Rs(w), 0, false, SignExtend16(Imm(w)))
    case 0x01 => Branch(Gez, Rs(w), 0, false, SignExtend16(Imm(w)))
    case 0x10 => Branch(Ltz, Rs(w), 0, true, SignExtend16(Imm(w)))
    case 0x11 => Branch(Gez, Rs(w), 0, true, SignExtend16(Imm(w)))
    case _ => Reserved
  }

  function Decode(w: Word): Instr {
    var simm := SignExtend16(Imm(w));
    match Opcode(w)
    case 0x00 => DecodeSpecial(w)
    case 0x01 => DecodeRegimm(w)
    case 0x02 => Jump(false, Index(w))
    case 0x03 => Jump(true, Index(w))
    case 0x04 => Branch(Eq, Rs(w), Rt(w), false, simm)
    case 0x05 => Branch(Ne, Rs(w), Rt(w), false, simm)
    case 0x06 => Branch(Lez, Rs(w), Rt(w), false, simm)
    case 0x07 => Branch(Gtz, Rs(w), Rt(w), false, simm)
    case 0x08 => AluImm(Add, Rs(w), Rt(w), simm)
    case 0x09 => AluImm(Add, Rs(w), Rt(w), simm)
    case 0x0A => AluImm(Slt, Rs(w), Rt(w), simm)
    case 0x0B => AluImm(Sltu, Rs(w), Rt(w), simm)
    case 0x0C => AluImm(Bits(And), Rs(w), Rt(w), Imm(w))
    case 0x0D => AluImm(Bits(Or), Rs(w), Rt(w), Imm(w))
    case 0x0E => AluImm(Bits(Xor), Rs(w), Rt(w), Imm(w))
    case 0x0F => Lui(Rt(w), Imm(w))
    case 0x20 => Load(OneByte, true, Rs(w), Rt(w), simm)
    case 0x21 => Load(Half, true, Rs(w), Rt(w), simm)
    case 0x23 => Load(Full, true, Rs(w), Rt(w), simm)
    case 0x24 => Load(OneByte, false, Rs(w), Rt(w), simm)
    case 0x25 => Load(Half, false, Rs(w), Rt(w), simm)
    case 0x28 => Store(OneByte, Rs(w), Rt(w), simm)
    case 0x29 => Store(Half, Rs(w), Rt(w), simm)
    case 0x2B => Store(Full, Rs(w), Rt(w), simm)
    case _ => Reserved
  }

  // --------------------------------------------------------------- semantics

  function Read(regs: Regs, r: RegNum): Word {
    if r == 0 then 0 else regs[r]
  }

  function Write(regs: Regs, r: RegNum, v: Word): Regs {
    if r == 0 then regs else regs[r := v]
  }

  function AluResult(fn: AluFn, a: Word, b: Word): Word {
    match fn
    case Add => Wrap(a + b)
    case Sub => Wrap(a - b)
    case Bits(f) => BitwiseWord(f, a, b)
    case Slt => if Signed(a) < Signed(b) then 1 else 0
    case Sltu => if a < b then 1 else 0
  }

  function ShiftResult(sh: ShiftFn, v: Word, s: nat): Word {
    match sh
    case Sll => ShiftLeft(v, s)
    case Srl => ShiftRightLogical(v, s)
    case Sra => ShiftRightArithmetic(v, s)
  }

  /** HI and LO after MULT or MULTU: the two halves of the 64-bit product. */
  function Product(signed: bool, a: Word, b: Word): (Word, Word) {
    var p := if signed then Signed(a) * Signed(b) else a * b;
    (Wrap(p / 0x1_0000_0000), Wrap(p))
  }

  /** HI and LO after DIV or DIVU: remainder and quotient. */
  function Quotient(signed: bool, a: Word, b: Word): (Word, Word) {
    if b == 0 then (0, 0)
    else if signed then (Wrap(TruncRem(Signed(a), Signed(b))), Wrap(TruncDiv(Signed(a), Signed(b))))
    else (Wrap(a % b), Wrap(a / b))
  }

  predicate Taken(c: Cond, a: Word, b: Word) {
    match c
    case Eq => a == b
    case Ne => a != b
    case Lez => Signed(a) <= 0
    case Gtz => Signed(a) > 0
    case Ltz => Signed(a) < 0
    case Gez => Signed(a) >= 0
  }

  function JumpTarget(pc: Word, index: nat): Word {
    Wrap(pc / 0x1000_0000 * 0x1000_0000 + index * 4)
  }

  function BranchTarget(pc: Word, offset: Word): Word {
    Wrap(pc + 4 + offset * 4)
  }

  function Get(mem: Mem, a: int): Byte {
    if a in mem then mem[a] else 0
  }

  function Bytes(size: Size): nat {
    match size case OneByte => 1 case Half => 2 case Full => 4
  }

  /** The little-endian value of the `size` bytes at `a`. */
  function LoadRaw(mem: Mem, size: Size, a: int): Word {
    match size
    case OneByte => Get(mem, a)
    case Half => Get(mem, a) + 0x100 * Get(mem, a + 1)
    case Full => Get(mem, a) + 0x100 * Get(mem, a + 1) + 0x1_0000 * Get(mem, a + 2) + 0x100_0000 * Get(mem, a + 3)
  }

  function LoadResult(mem: Mem, size: Size, signExtend: bool, a: int): Word {
    var raw := LoadRaw(mem, size, a);
    if !signExtend then raw
    else match size
      case OneByte => SignExtend8(raw)
      case Half => SignExtend16(raw)
      case Full => raw
  }

  /** Byte `i` of `v`, the least significant one first. */
  function ByteOf(v: Word, i: nat): Byte
    requires i < 4
  {
    match i case 0 => v % 0x100 case 1 => v / 0x100 % 0x100 case 2 => v / 0x1_0000 % 0x100 case 3 => v / 0x100_0000
  }

  function StoreResult(mem: Mem, size: Size, a: int, v: Word): Mem {
    match size
    case OneByte => mem[a := ByteOf(v, 0)]
    case Half => mem[a := ByteOf(v, 0)][a + 1 := ByteOf(v, 1)]
    case Full => mem[a := ByteOf(v, 0)][a + 1 := ByteOf(v, 1)][a + 2 := ByteOf(v, 2)][a + 3 := ByteOf(v, 3)]
  }

  /** One instruction, in program order. */
  function Step(text: Text, s: Arch): Arch {
    var next := Wrap(s.pc + 4);
    match Decode(text(s.pc))
    case Alu(fn, rs, rt, rd) =>
      s.(regs := Write(s.regs, rd, AluResult(fn, Read(s.regs, rs), Read(s.regs, rt))), pc := next)
    case AluImm(fn, rs, rt, imm) =>
      s.(regs := Write(s.regs, rt, AluResult(fn, Read(s.regs, rs), imm)), pc := next)
    case Lui(rt, imm) =>
      s.(regs := Write(s.regs, rt, Wrap(imm * 0x1_0000)), pc := next)
    case Shift(sh, rt, rd, sa) =>
      s.(regs := Write(s.regs, rd, ShiftResult(sh, Read(s.regs, rt), sa)), pc := next)
    case ShiftVar(sh, rs, rt, rd) =>
      s.(regs := Write(s.regs, rd, ShiftResult(sh, Read(s.regs, rt), Read(s.regs, rs) % 32)), pc := next)
    case Mult(signed, rs, rt) =>
      var (hi, lo) := Product(signed, Read(s.regs, rs), Read(s.regs, rt));
      s.(hi := hi, lo := lo, pc := next)
    case Div(signed, rs, rt) =>
      var (hi, lo) := Quotient(signed, Read(s.regs, rs), Read(s.regs, rt));
      s.(hi := hi, lo := lo, pc := next)
    case MoveFrom(hi, rd) =>
      s.(regs := Write(s.regs, rd, if hi then s.hi else s.lo), pc := next)
    case MoveTo(hi, rs) =>
      if hi then s.(hi := Read(s.regs, rs), pc := next) else s.(lo := Read(s.regs, rs), pc := next)
    case JumpReg(rs) =>
      s.(pc := Read(s.regs, rs))
    case JumpRegLink(rs, rd) =>
      s.(regs := Write(s.regs, rd, next), pc := Read(s.regs, rs))
    case Jump(link, index) =>
      s.(regs := if link then Write(s.regs, 31, next) else s.regs, pc := JumpTarget(s.pc, index))
    case Branch(cond, rs, rt, link, offset) =>
      s.(regs := if link then Write(s.regs, 31, next) else s.regs,
      pc := if Taken(cond, Read(s.regs, rs), Read(s.regs, rt)) then BranchTarget(s.pc, offset) else next)
    case Load(size, signExtend, base, rt, offset) =>
      s.(regs := Write(s.regs, rt, LoadResult(s.mem, size, signExtend, Wrap(Read(s.regs, base) + offset))), pc := next)
    case Store(size, base, rt, offset) =>
      s.(mem := StoreResult(s.mem, size, Wrap(Read(s.regs, base) + offset), Read(s.regs, rt)), pc := next)
    case Syscall => s.(pc := next)
    case Reserved => s.(pc := next)
  }

  /** The architectural state after `n` instructions. */
  function Run(text: Text, s: Arch, n: nat): Arch {
    if n == 0 then s else Step(text, Run(text, s, n - 1))
  }

  /** The instruction at `s.pc` is SYSCALL with the exit code 10 in $v0. */
  predicate Exits(text: Text, s: Arch) {
    Decode(text(s.pc)).Syscall? && Read(s.regs, 2) == 10
  }

  predicate IsControl(w: Word) {
    var i := Decode(w);
    i.JumpReg? || i.JumpRegLink? || i.Jump? || i.Branch? || Opcode(w) == 1
  }

  /** The encodings of opcode SPECIAL that have no register result. */
  predicate NoResult(w: Word) {
    var i := Decode(w);
    Opcode(w) == 0 && (i.Mult? || i.Div? || i.MoveTo? || i.JumpReg? || i.Syscall? || i.Reserved?)
  }

  predicate WritesHiLo(w: Word) {
    var i := Decode(w);
    i.Mult? || i.Div? || i.MoveTo?
  }

  /** A conditional branch may name address 0, the simulator's mark for an
      already resolved branch, when it is not taken and decode does not mistake
      it for a JALR, whose subopcode it looks for in any branch with the mark. */
  predicate TargetOk(pc: Word, w: Word, taken: bool) {
    BranchTarget(pc, SignExtend16(Imm(w))) != 0 || (!taken && Funct(w) != 0x09)
  }

  /** What the instruction about to run must satisfy for the simulator to be
      required to agree with it: the C++ expressions it evaluates are defined,
      loads are aligned, a control transfer does not lead to address 0, and rd
      is 0 where the encoding has no register result. */
  predicate Supported(text: Text, s: Arch) {
    var w := text(s.pc);
    (NoResult(w) ==> Rd(w) == 0) &&
    match Decode(w)
    case ShiftVar(_, rs, _, _) => Read(s.regs, rs) < 32
    case Div(signed, rs, rt) => signed ==> !(Read(s.regs, rs) == 0x8000_0000 && Read(s.regs, rt) == 0xFFFF_FFFF)
    case JumpReg(rs) => Read(s.regs, rs) != 0
    case JumpRegLink(rs, _) => Read(s.regs, rs) != 0
    case Jump(_, index) => JumpTarget(s.pc, index) != 0
    case Branch(cond, rs, rt, _, _) => TargetOk(s.pc, w, Taken(cond, Read(s.regs, rs), Read(s.regs, rt)))
    case Load(size, _, base, _, offset) => Wrap(Read(s.regs, base) + offset) % Bytes(size) == 0
    case Reserved => Opcode(w) == 1 ==> TargetOk(s.pc, w, false)
    case _ => true
  }
}
