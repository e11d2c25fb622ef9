/** Where the pipeline and the instruction set part: for each condition that the
    main results ask of a program, exactly when the simulator meets its
    specification without it, and an input on which it does not. */
module Limits {
  import opened Words
  import opened Isa
  import opened Packets
  import opened PipeSpec
  import opened IsaAgreement
  import opened PipeInvariant
  import opened Geometry
  import opened Simulation

  // --------------------------------------------- destinations without a result

  /** The value that an op without a register result carries all the same. */
  function StrayValue(m: Machine, s: Arch): Word {
    if Decode(m.text(s.pc)).JumpReg? then Wrap(s.pc + 4) else 0
  }

  /** An instruction of opcode SPECIAL that has no register result leaves the
      registers as the instruction set says exactly when its rd field is 0 or
      names a register that already holds the value its op carries. */
  lemma StrayDestinationIff(m: Machine, s: Arch)
    requires NoResult(m.text(s.pc)) && s.regs[0] == 0
    ensures var rd := Rd(m.text(s.pc));
            Retire(s.regs, Executed(m, s).op) == Step(m.text, s).regs <==> rd == 0 || s.regs[rd] == StrayValue(m, s)
  {
    NoResultIsSpecial(m.text(s.pc));
    hide *;
    var op := WithSources(DecodedOp(m.text, s.pc), s.regs);
    SpecialDecoded(m, s);
    StrayOp(m, s, op);
    ExecutedIs(m, s);
    NoRegisterStep(m.text, s);
    RetireChanges(s.regs, Executed(m, s).op);
  }

  lemma NoResultIsSpecial(w: Word)
    requires NoResult(w)
    ensures Opcode(w) == OP_SPECIAL
  {
  }

  lemma ExecutedIs(m: Machine, s: Arch)
    ensures Executed(m, s) == ExecOp(m, WithSources(DecodedOp(m.text, s.pc), s.regs), s.hi, s.lo)
  {
  }

  lemma RetireChanges(regs: Regs, op: Op)
    requires op.dst >= 0
    ensures Retire(regs, op) == regs <==> op.dst == 0 || regs[op.dst] == op.dstValue
  {
    if op.dst != 0 {
      assert Retire(regs, op)[op.dst] == op.dstValue;
      if regs[op.dst] == op.dstValue { assert regs[op.dst := op.dstValue] == regs; }
    }
  }

  lemma StrayOp(m: Machine, s: Arch, op: Op)
    requires NoResult(m.text(s.pc)) && SpecialOperands(m.text(s.pc), s, op)
    ensures var r := ExecOp(m, op, s.hi, s.lo).op;
            r.dst == Rd(m.text(s.pc)) && r.dstValue == StrayValue(m, s)
  {
    hide Opcode, Rs, Rt, Rd, Sa, Funct, Imm, Index, SpecialHiLo;
  }

  lemma NoRegisterStep(text: Text, s: Arch)
    requires NoResult(text(s.pc))
    ensures Step(text, s).regs == s.regs
  {
    hide Opcode, Rs, Rt, Rd, Sa, Funct, Imm, Index;
  }

  /** For instance MULT with 1 in its rd field clears register 1. */
  lemma StrayDestinationFails(m: Machine, s: Arch)
    requires m.text(s.pc) == 0x0000_0818 && s.regs[0] == 0 && s.regs[1] == 5
    ensures NoResult(m.text(s.pc)) && Step(m.text, s).regs[1] == 5
            && Retire(s.regs, Executed(m, s).op) != Step(m.text, s).regs
  {
    assert Rd(0x0000_0818) == 1 && Opcode(0x0000_0818) == 0 && Funct(0x0000_0818) == 0x18;
    assert Decode(0x0000_0818).Mult?;
    StrayDestinationIff(m, s);
    NoRegisterStep(m.text, s);
  }

  // --------------------------------------------------------- unaligned loads

  /** What a load takes out of the aligned word around its address is the value
      at its address, in every memory, exactly when the address is aligned. */
  lemma AlignedLoadIff(c: nat, a: Word)
    requires LoadOpcode(c)
    ensures (forall mem: Mem ::
               Extract(c, a, WordOf(ReadBytes(mem, a / 4 * 4, 4))) == LoadResult(mem, SizeOf(c), c < 0x24, a))
       <==> a % Bytes(SizeOf(c)) == 0
  {
    if a % Bytes(SizeOf(c)) == 0 {
      forall mem: Mem
        ensures Extract(c, a, WordOf(ReadBytes(mem, a / 4 * 4, 4))) == LoadResult(mem, SizeOf(c), c < 0x24, a)
      {
        ExtractAgrees(mem, c, a);
      }
    } else {
      UnalignedLoad(c, a);
    }
  }

  lemma UnalignedLoad(c: nat, a: Word)
    requires LoadOpcode(c) && a % Bytes(SizeOf(c)) != 0
    ensures var b := a / 4 * 4;
            var mem: Mem := map[if c == OP_LW then b else b + 2 := 1];
            Extract(c, a, WordOf(ReadBytes(mem, b, 4))) != LoadResult(mem, SizeOf(c), c < 0x24, a)
  {
    var b := a / 4 * 4;
    var mem: Mem := map[if c == OP_LW then b else b + 2 := 1];
    var d := ReadBytes(mem, b, 4);
    Lanes(d);
    assert d[0] == Get(mem, b) && d[1] == Get(mem, b + 1) && d[2] == Get(mem, b + 2) && d[3] == Get(mem, b + 3);
    var k := a % 4;
    assert a == b + k;
    hide WordOf;
    if c != OP_LW {
      assert k == 1 || k == 3;
      assert a / 2 % 2 == k / 2;
    }
  }

  // ------------------------------------------------------------ not vacuous

  /** The conditions on programs can be met forever: every instruction of the
      program of zero words is supported, and none accesses memory. */
  lemma ZeroProgramIsGood(r: Ref, c: Config, n: nat)
    requires forall a: Word :: r.m.text(a) == 0
    ensures Good(r, n) && GoodAndPlaced(r, c, n)
  {
    assert Opcode(0) == 0 && Funct(0) == 0 && Rt(0) == 0 && Rd(0) == 0 && Sa(0) == 0;
    assert Decode(0) == Shift(Sll, 0, 0, 0);
    forall k: nat | k < n ensures PlacedAt(r, c, k) {
      assert r.m.text(r.At(k).pc) == 0;
      hide Run;
    }
    hide *;
    PlacedIsGood(r, c, n);
  }
}
