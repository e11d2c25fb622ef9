/** The hazard logic of the pipeline by itself, in any state and not only in those
    that a run reaches: forwarding and the store bypass against the register file
    as it will be when the ops ahead have retired, stall counts, and the request
    of a fetch that has to wait. */
module Hazards {
  import opened Words
  import opened Isa
  import opened Packets
  import opened PipeSpec
  import opened IsaAgreement
  import opened PipeStages

  // --------------------------------------------------------------- forwarding

  /** The register file after the op in a slot has retired. */
  function AfterSlot(regs: Regs, slot: Option<Op>): Regs {
    if slot.Some? && slot.value.dst > 0 then regs[slot.value.dst := slot.value.dstValue] else regs
  }

  /** The op in a slot will write `r` and does not have the value yet. */
  predicate StillComputes(slot: Option<Op>, r: RegId) {
    slot.Some? && slot.value.dst == r && !slot.value.dstReady
  }

  predicate WritesTo(slot: Option<Op>, r: RegId) {
    slot.Some? && slot.value.dst == r
  }

  /** Forwarding reads a register as it will be when write back and the memory
      stage have retired, and reports it as not ready exactly when the younger of
      the two that writes it has no value yet. */
  lemma ForwardingIsRetirement(p: Pipe, r: RegId)
    requires r > 0
    ensures var st := GetRegisterState(p, r);
            && !st.NotApplicable?
            && (st.NotReady? <==> StillComputes(p.memOp, r) || (!WritesTo(p.memOp, r) && StillComputes(p.wbOp, r)))
            && (st.Ready? ==> st.value == AfterSlot(AfterSlot(p.regs, p.wbOp), p.memOp)[r])
  {
    if WritesTo(p.memOp, r) {} else if WritesTo(p.wbOp, r) {} else {}
  }

  /** The store bypass reads the register as it will be when write back has
      retired, exactly unless the store is of register 0 and write back would
      give it another value than it has. */
  lemma BypassIsRetirementIff(p: Pipe, op: Op)
    requires op.src2 >= 0
    ensures var b := Bypassed(p, op);
            && (!IsStore(op) ==> b == op)
            && (IsStore(op) ==>
                  b == op.(memValue := b.memValue, src2Value := b.memValue)
                  && (b.memValue == AfterSlot(p.regs, p.wbOp)[op.src2] <==>
                        !(op.src2 == 0 && WritesTo(p.wbOp, 0) && p.wbOp.value.dstValue != p.regs[0])))
  {
    if WritesTo(p.wbOp, op.src2) {} else {}
  }

  // ------------------------------------------------------------------- stalls

  /** The latency of a multiplication or division, noted in its own op; every
      other op leaves execute with none. */
  lemma LatencyNoted(m: Machine, t: Arch)
    ensures Executed(m, t).op.stall == match Decode(m.text(t.pc))
                                       case Mult(_, _, _) => 4
                                       case Div(_, _, _) => 32
                                       case _ => 0
  {
    var op := WithSources(DecodedOp(m.text, t.pc), t.regs);
    NoStall(m.text, t.pc);
    DecodedKind(m.text, t.pc);
    SourcesKeepKind(DecodedOp(m.text, t.pc), t.regs);
    KindOfWord(m.text(t.pc));
    hide DecodedOp, WithSources, Decode, SpecialValue, SpecialHiLo, ExecPlain, Opcode, Funct, IsJumpReg;
    PlainKeepsStall(op);
  }

  lemma PlainKeepsStall(op: Op)
    ensures ExecPlain(op).stall == op.stall
  {
    hide Condition, ImmediateValue, IsImmediate, IsLoad, IsStore;
  }

  lemma DecodedKind(text: Text, pc: Word)
    ensures var op := DecodedOp(text, pc);
            op.opcode == Opcode(text(pc)) && (op.opcode == 0 ==> op.subop == Funct(text(pc)))
  {
    hide Opcode, Rs, Rt, Rd, Sa, Funct, Imm, Index, SignExtend16;
  }

  lemma SourcesKeepKind(op: Op, regs: Regs)
    ensures var q := WithSources(op, regs);
            q.opcode == op.opcode && q.subop == op.subop && q.stall == op.stall
  {
    hide Read, IsStore;
    if op.src1 == -1 {
      if IsStore(op) || op.src2 == -1 {} else {}
    } else {
      var op1 := op.(src1Value := Read(regs, op.src1));
      if IsStore(op1) || op1.src2 == -1 {} else {}
    }
  }

  lemma KindOfWord(w: Word)
    ensures Decode(w).Mult? <==> Opcode(w) == 0 && (Funct(w) == 0x18 || Funct(w) == 0x19)
    ensures Decode(w).Div? <==> Opcode(w) == 0 && (Funct(w) == 0x1A || Funct(w) == 0x1B)
  {
    hide Opcode, Rs, Rt, Rd, Sa, Funct, Imm, Index, SignExtend16;
  }

  /** The four instructions that move to or from HI and LO. */
  predicate MovesHiLo(op: Op) {
    op.opcode == 0 && op.subop in {0x10, 0x11, 0x12, 0x13}
  }

  /** Execute need not wait for an operand: a store takes its second one later. */
  predicate OperandsAtHand(p: Pipe, op: Op) {
    !GetRegisterState(p, op.src1).NotReady? && (IsStore(op) || !GetRegisterState(p, op.src2).NotReady?)
  }

  /** The op with its operands as forwarding gives them. */
  function Forwarded(p: Pipe, op: Op): Op {
    var op1 := TakeSource1(op, GetRegisterState(p, op.src1));
    if IsStore(op) then op1 else TakeSource2(op1, GetRegisterState(p, op.src2))
  }

  /** One cycle less to wait. */
  function Ticked(op: Op): Op {
    op.(stall := if op.stall > 0 then op.stall - 1 else 0)
  }

  lemma TickCounts(p: Pipe, op: Op)
    requires p.executeOp == Some(op)
    ensures TickStall(p) == p.(executeOp := Some(Ticked(op)))
    ensures OperandsAtHand(TickStall(p), Ticked(op)) == OperandsAtHand(p, op)
  {
    if op.stall > 0 {} else {}
  }

  lemma TakeKeeps(op: Op, st: RegisterState)
    ensures var q := TakeSource1(op, st);
            && q.src1 == op.src1 && q.src2 == op.src2
            && q.opcode == op.opcode && q.subop == op.subop && q.stall == op.stall
    ensures var q := TakeSource2(op, st);
            && q.src1 == op.src1 && q.src2 == op.src2
            && q.opcode == op.opcode && q.subop == op.subop && q.stall == op.stall
  {
  }

  lemma ForwardedKeeps(p: Pipe, op: Op)
    ensures var q := Forwarded(p, op);
            MovesHiLo(q) == MovesHiLo(op) && q.stall == op.stall
  {
    var op1 := TakeSource1(op, GetRegisterState(p, op.src1));
    TakeKeeps(op, GetRegisterState(p, op.src1));
    TakeKeeps(op1, GetRegisterState(p, op.src2));
    hide TakeSource1, TakeSource2, GetRegisterState, IsStore;
  }

  lemma OperandsRead(m: Machine, p: Pipe, op: Op)
    requires p.memOp.None? && p.executeOp == Some(op) && OperandsAtHand(p, op)
    ensures ExecuteStage(m, p) == ExecuteReady(m, TickStall(p), Forwarded(TickStall(p), Ticked(op)))
  {
    TickCounts(p, op);
    hide GetRegisterState, ExecuteReady, TickStall, TakeSource1, TakeSource2;
    var s := TickStall(p);
    TakeKeeps(Ticked(op), GetRegisterState(s, op.src1));
  }

  /** With its operands read, an op waits for its count or leaves. */
  lemma ReadyLeaves(m: Machine, p: Pipe, op: Op)
    ensures var q := ExecuteReady(m, p, op);
            if MovesHiLo(op) && op.stall > 0 then q == p.(executeOp := Some(op.(dstReady := true)))
            else q.executeOp.None? && q.memOp.Some?
  {
    hide ExecOp, ResolveBranch;
  }

  /** With its operands at hand and nothing in the memory stage, an op leaves
      execute in this cycle, unless it moves HI or LO and its count is above 1:
      then the count goes down by one, and nothing else happens. */
  lemma StallHolds(m: Machine, p: Pipe, op: Op)
    requires p.memOp.None? && p.executeOp == Some(op) && OperandsAtHand(p, op)
    ensures var q := ExecuteStage(m, p);
            if MovesHiLo(op) && op.stall > 1 then
              && q == p.(executeOp := q.executeOp) && q.executeOp.Some?
              && MovesHiLo(q.executeOp.value) && q.executeOp.value.stall == op.stall - 1
              && OperandsAtHand(q, q.executeOp.value)
            else q.executeOp.None? && q.memOp.Some?
  {
    TickCounts(p, op);
    OperandsRead(m, p, op);
    var s := TickStall(p);
    var now := Forwarded(s, Ticked(op));
    ForwardedKeeps(s, Ticked(op));
    ReadyLeaves(m, s, now);
    if MovesHiLo(op) && op.stall > 1 { StaysAtHand(s, Ticked(op)); }
    hide OperandsAtHand, ExecuteReady, ExecuteStage, TickStall, Forwarded;
  }

  lemma StaysAtHand(p: Pipe, op: Op)
    requires OperandsAtHand(p, op)
    ensures var q := Forwarded(p, op).(dstReady := true);
            OperandsAtHand(p.(executeOp := Some(q)), q)
  {
    var op1 := TakeSource1(op, GetRegisterState(p, op.src1));
    TakeKeeps(op, GetRegisterState(p, op.src1));
    TakeKeeps(op1, GetRegisterState(p, op.src2));
    var q := Forwarded(p, op).(dstReady := true);
    SlotIsFree(p, Some(q), q.src1);
    SlotIsFree(p, Some(q), q.src2);
    hide TakeSource1, TakeSource2, GetRegisterState;
  }

  lemma SlotIsFree(p: Pipe, slot: Option<Op>, r: RegId)
    ensures GetRegisterState(p.(executeOp := slot), r) == GetRegisterState(p, r)
  {
  }

  /** The execute stage `n` times. */
  function ExecuteTimes(m: Machine, p: Pipe, n: nat): Pipe {
    if n == 0 then p else ExecuteStage(m, ExecuteTimes(m, p, n - 1))
  }

  /** An instruction that moves HI or LO is in execute with nothing to wait for
      but a stall count of `k`. */
  predicate Stalling(p: Pipe, k: nat) {
    && p.memOp.None? && p.executeOp.Some?
    && OperandsAtHand(p, p.executeOp.value) && MovesHiLo(p.executeOp.value) && p.executeOp.value.stall == k
  }

  lemma StallStep(m: Machine, p: Pipe, k: nat)
    requires Stalling(p, k)
    ensures if k > 1 then Stalling(ExecuteStage(m, p), k - 1) else ExecuteStage(m, p).executeOp.None?
  {
    StallHolds(m, p, p.executeOp.value);
    hide ExecuteStage, OperandsAtHand, MovesHiLo;
  }

  lemma {:induction false} StallsFor(m: Machine, p: Pipe, k: nat, n: nat)
    requires Stalling(p, k) && (n == 0 || n < k)
    ensures Stalling(ExecuteTimes(m, p, n), k - n)
  {
    hide ExecuteStage, Stalling;
    if n > 0 {
      StallsFor(m, p, k, n - 1);
      StallStep(m, ExecuteTimes(m, p, n - 1), k - (n - 1));
    }
  }

  /** An MFHI, MTHI, MFLO or MTLO with a stall count of `k` is in execute for
      exactly that many turns, and for one if the count is 0. */
  lemma StallIsCount(m: Machine, p: Pipe, k: nat, n: nat)
    requires Stalling(p, k) && n <= if k == 0 then 1 else k
    ensures ExecuteTimes(m, p, n).executeOp.None? <==> n == if k == 0 then 1 else k
  {
    hide *;
    if n == 0 || n < k {
      StallsFor(m, p, k, n);
      StallingIsThere(ExecuteTimes(m, p, n), k - n);
    } else {
      StallsFor(m, p, k, n - 1);
      StallStep(m, ExecuteTimes(m, p, n - 1), k - (n - 1));
      OnceMore(m, p, n);
    }
  }

  lemma StallingIsThere(p: Pipe, k: nat)
    requires Stalling(p, k)
    ensures p.executeOp.Some?
  {
    hide OperandsAtHand, MovesHiLo;
  }

  lemma OnceMore(m: Machine, p: Pipe, n: nat)
    requires n > 0
    ensures ExecuteTimes(m, p, n) == ExecuteStage(m, ExecuteTimes(m, p, n - 1))
  {
    hide ExecuteStage;
  }

  // --------------------------------------------------------------- memory ops

  /** Decode marks exactly the loads and stores as memory ops, and the stores as
      writes. */
  lemma MarkedAccess(text: Text, pc: Word)
    ensures var op := DecodedOp(text, pc);
            var i := Decode(text(pc));
            (op.isMem <==> i.Load? || i.Store?) && (op.memWrite <==> i.Store?)
  {
    hide Rs, Rt, Rd, Sa, Funct, Imm, Index, SignExtend16, Opcode;
  }

  // -------------------------------------------------------------------- fetch

  /** While decode is full, or the op in fetch has no instruction yet, fetch asks
      for nothing new; a request that was refused is offered again, the same one. */
  lemma FetchWaits(p: Pipe, op: Op, accept: bool)
    requires p.fetchOp == Some(op) && (p.decodeOp.Some? || !op.isFetchIssued || !op.readyForNextStage)
    ensures var (q, offered) := FetchStage(p, accept);
            var again := p.decodeOp.None? && !op.isFetchIssued;
            && q == p.(fetchOp := Some(if again then op.(isFetchIssued := accept) else op))
            && offered == if again then Some(Packet(false, FetchPacket, op.pc, 4, [0, 0, 0, 0])) else None
  {
    hide PredictedPc;
  }
}
