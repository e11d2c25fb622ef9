/** What holds of the pipeline between any two events, stated against the run
    of the sequential instruction set from the same start. The `retired`
    counter of the pipeline says how far the register file has come in that
    run; the ops in write back and memory are the next one or two steps. */
module PipeInvariant {
  import opened Words
  import opened Isa
  import opened Packets
  import opened PredictorSpec
  import opened PipeSpec
  import opened IsaAgreement
  import opened PipeSystem

  /** The instruction-set run that the pipeline is compared with. */
  datatype Ref = Ref(m: Machine, start: Arch) {
    function At(k: nat): Arch {
      Run(m.text, start, k)
    }
  }

  /** How many instructions precede the op in the memory stage. */
  function MemIndex(p: Pipe): nat {
    p.retired + if p.wbOp.Some? then 1 else 0
  }

  /** How many instructions have been executed. */
  function ExecIndex(p: Pipe): nat {
    MemIndex(p) + if p.memOp.Some? then 1 else 0
  }

  /** An exit syscall is in write back; the run stops in the next cycle. */
  predicate Draining(p: Pipe) {
    p.wbOp.Some? && IsExitOp(p.wbOp.value)
  }

  predicate WbOk(r: Ref, p: Pipe) {
    && p.regs == r.At(p.retired).regs
    && p.regs[0] == 0
    && (p.wbOp.Some? ==> Completed(r.m.text, r.At(p.retired), p.wbOp.value))
    && (p.retired > 0 ==> !Exits(r.m.text, r.At(p.retired - 1)))
  }

  /** The op in the memory stage is the instruction at `t`; `mem` has its store
      exactly when the reply has come; an accepted access is in `reqs`. */
  predicate OpInMemory(text: Text, t: Arch, op: Op, mem: Mem, reqs: seq<Packet>) {
    if !op.isMem then
      Completed(text, t, op) && AccessOf(text, t).None? && Step(text, t).mem == t.mem && mem == t.mem && reqs == []
    else
      && AccessOp(text, t, op)
      && if !op.memTried then mem == t.mem && reqs == []
         else
           && op.memPkt.Some? && op.memPkt == AccessOf(text, t) && GoodAccess(text, t, op.memPkt.value)
           && if op.waitOnPktIssue then mem == t.mem && reqs == [] && !op.readyForNextStage
              else if !op.readyForNextStage then mem == t.mem && reqs == [op.memPkt.value]
              else Completed(text, t, op) && mem == Step(text, t).mem && reqs == []
  }

  predicate MemOk(r: Ref, p: Pipe, mem: Mem, reqs: seq<Packet>) {
    var t := r.At(MemIndex(p));
    match p.memOp
    case None => mem == t.mem && reqs == []
    case Some(op) => OpInMemory(r.m.text, t, op, mem, reqs)
  }

  /** Behind the instruction at `pc` the pipeline may fetch something else than
      pc + 4: a control transfer, but not a jump to 0, nor a branch that names 0
      unless decode takes it for a JALR. */
  predicate Diverts(text: Text, pc: Word) {
    var w := text(pc);
    && IsControl(w)
    && (JumpOpcode(Opcode(w)) ==> JumpTarget(pc, Index(w)) != 0)
    && (ConditionalOpcode(Opcode(w)) ==> BranchTarget(pc, SignExtend16(Imm(w))) != 0 || Funct(w) == SUBOP_JALR)
  }

  /** Only control transfers are in the branch target buffer. */
  predicate BtbOk(text: Text, btb: seq<BtbEntry>) {
    forall i :: 0 <= i < |btb| && btb[i].valid ==> Diverts(text, btb[i].pc)
  }

  predicate FetchForm(text: Text, op: Op) {
    && op == NewOp(op.pc).(isFetchIssued := op.isFetchIssued, readyForNextStage := op.readyForNextStage,
                           instruction := op.instruction)
    && (op.readyForNextStage ==> op.instruction == text(op.pc))
  }

  /** The ops before execute are determined by their pc and the program. */
  predicate FrontOk(text: Text, p: Pipe) {
    && !p.crashed
    && (p.fetchOp.Some? ==> FetchForm(text, p.fetchOp.value))
    && (p.decodeOp.Some? ==> p.fetchOp.Some? && p.decodeOp.value == FetchedOp(text, p.decodeOp.value.pc))
    && (p.executeOp.Some? ==> p.executeOp.value == DecodedOp(text, p.executeOp.value.pc))
    && BtbOk(text, p.bp.btb)
  }

  /** `y` may follow `x` in the pipeline: always pc + 4 after an instruction
      that does not divert, and the target after a decoded J or JAL. */
  predicate Link(text: Text, x: Word, y: Word, decoded: bool) {
    var w := text(x);
    if !Diverts(text, x) then y == Wrap(x + 4)
    else decoded && JumpOpcode(Opcode(w)) ==> y == JumpTarget(x, Index(w))
  }

  /** The pc of the oldest op that has not executed. */
  function Head(p: Pipe): Word {
    if p.executeOp.Some? then p.executeOp.value.pc else NextPc(p)
  }

  predicate Linked(text: Text, p: Pipe) {
    && (p.executeOp.Some? ==> Link(text, p.executeOp.value.pc, NextPc(p), true))
    && (p.decodeOp.Some? && p.fetchOp.Some? ==> Link(text, p.decodeOp.value.pc, p.fetchOp.value.pc, false))
    && (p.fetchOp.Some? ==> Link(text, p.fetchOp.value.pc, p.pc, false))
  }

  /** The oldest op that has not executed is the next instruction of the run,
      or the scheduled recovery restarts fetch there. */
  predicate OnPath(text: Text, t: Arch, p: Pipe) {
    && p.hi == t.hi && p.lo == t.lo
    && if !p.recover then Head(p) == t.pc && Linked(text, p)
       else match p.flush
         case FlushExecute => p.recoverDest == t.pc
         case FlushDecode =>
           && p.executeOp.Some? && p.executeOp.value.pc == t.pc
           && Link(text, p.executeOp.value.pc, p.recoverDest, true)
         case NoFlush => false
  }

  predicate PathOk(r: Ref, p: Pipe) {
    OnPath(r.m.text, r.At(ExecIndex(p)), p)
  }

  /** HI and LO behind an exit syscall: those of the run at `t`, or those that
      the one op executed beyond `t` leaves when it has got as far as the memory
      stage. */
  predicate HiLoAfterExit(m: Machine, t: Arch, p: Pipe) {
    if p.memOp.Some? then p.hi == Executed(m, t).hi && p.lo == Executed(m, t).lo
    else p.hi == t.hi && p.lo == t.lo
  }

  predicate DrainOk(r: Ref, p: Pipe, mem: Mem, reqs: seq<Packet>) {
    var t := r.At(p.retired + 1);
    && mem == t.mem && reqs == [] && HiLoAfterExit(r.m, t, p)
    && if p.memOp.None? then OnPath(r.m.text, t, p)
       else Supported(r.m.text, t) ==>
         OpInMemory(r.m.text, t, p.memOp.value, mem, reqs) && OnPath(r.m.text, r.At(p.retired + 2), p)
  }

  predicate HaltOk(r: Ref, p: Pipe, mem: Mem, reqs: seq<Packet>) {
    && p.retired > 0
    && var t := r.At(p.retired);
       && Exits(r.m.text, r.At(p.retired - 1))
       && p.regs == t.regs && mem == t.mem && reqs == [] && HiLoAfterExit(r.m, t, p)
       && p.pc == r.At(p.retired - 1).pc && p.wbOp.None?
  }

  predicate FetchesOk(fetches: seq<Packet>) {
    forall i :: 0 <= i < |fetches| ==> fetches[i].ptype == FetchPacket && !fetches[i].isWrite && fetches[i].size == 4
  }

  /** The retirements of the first `n` instructions of the run. */
  function RefLog(r: Ref, n: nat): seq<Retirement> {
    if n == 0 then [] else RefLog(r, n - 1) + [Retirement(r.At(n - 1).pc, r.At(n).regs)]
  }

  /** The data requests of the first `n` instructions of the run. */
  function AccessLog(r: Ref, n: nat): seq<Packet> {
    if n == 0 then [] else Added(AccessLog(r, n - 1), AccessOf(r.m.text, r.At(n - 1)), true)
  }

  /** How many instructions have had their data request accepted, if they have
      one. */
  function AccessIndex(p: Pipe): nat {
    if !p.run then p.retired
    else if Draining(p) then p.retired + 1
    else MemIndex(p) +
         if p.memOp.Some? && p.memOp.value.isMem && p.memOp.value.memTried && !p.memOp.value.waitOnPktIssue then 1
         else 0
  }

  predicate PipeOk(r: Ref, p: Pipe, mem: Mem, reqs: seq<Packet>) {
    && !p.recover && !p.crashed
    && if !p.run then HaltOk(r, p, mem, reqs)
       else
         && WbOk(r, p)
         && if Draining(p) then DrainOk(r, p, mem, reqs)
            else MemOk(r, p, mem, reqs) && FrontOk(r.m.text, p) && PathOk(r, p)
  }

  /** No instruction retired so far was an exit syscall, except the one that
      stopped the run. */
  predicate NoExitYet(r: Ref, n: nat) {
    forall k: nat :: k < n ==> !Exits(r.m.text, r.At(k))
  }

  function UnstoppedCount(p: Pipe): nat {
    if p.run || p.retired == 0 then p.retired else p.retired - 1
  }

  predicate Inv(r: Ref, s: Sys) {
    && PipeOk(r, s.pipe, s.mem, s.dataReqs)
    && NoExitYet(r, UnstoppedCount(s.pipe))
    && FetchesOk(s.fetches)
    && s.log == RefLog(r, s.pipe.retired)
    && s.issued == AccessLog(r, AccessIndex(s.pipe))
  }

  /** Instruction `k` of the run is supported, or comes right after an exit
      syscall. */
  predicate GoodAt(r: Ref, k: nat) {
    Supported(r.m.text, r.At(k)) || (k > 0 && Exits(r.m.text, r.At(k - 1)))
  }

  predicate Good(r: Ref, n: nat) {
    forall k: nat :: k < n ==> GoodAt(r, k)
  }
}
