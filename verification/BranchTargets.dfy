/** What the branch target buffer holds over a whole run: one entry for a control
    transfer at most, and for a direct one the target that its word names. */
module BranchTargets {
  import opened Words
  import opened Isa
  import opened Packets
  import opened PredictorSpec
  import opened PipeSpec
  import opened IsaAgreement
  import opened PipeSystem
  import opened PipeInvariant
  import opened PipeStages
  import opened PipeCycle
  import opened PipeRuns
  import opened PredictorProofs
  import opened BranchTraining

  /** A control transfer at `pc` can go to `target`: a direct one only to the
      address that it names. */
  predicate CanGoTo(text: Text, pc: Word, target: Word) {
    var w := text(pc);
    && Diverts(text, pc)
    && (JumpOpcode(Opcode(w)) ==> target == JumpTarget(pc, Index(w)))
    && (ConditionalOpcode(Opcode(w)) ==> target == BranchTarget(pc, SignExtend16(Imm(w))))
  }

  predicate BufferOk(text: Text, btb: seq<BtbEntry>) {
    && UniquePcs(btb)
    && forall i :: 0 <= i < |btb| && btb[i].valid ==> CanGoTo(text, btb[i].pc, btb[i].target)
  }

  lemma UpdateKeepsBuffer(text: Text, bp: Predictor, pc: Word, taken: bool, target: Word)
    requires BufferOk(text, bp.btb) && (taken ==> CanGoTo(text, pc, target))
    ensures BufferOk(text, Update(bp, pc, taken, target).btb)
  {
    UpdateKeepsUnique(bp.btb, pc, taken, target);
    hide CanGoTo, UniquePcs;
  }

  /** The destination of an op that execute has not yet seen. */
  lemma DecodedGoes(text: Text, pc: Word)
    ensures var op := DecodedOp(text, pc);
            op.isBranch && op.branchDest != 0 ==> CanGoTo(text, pc, op.branchDest)
    ensures var op := DecodedOp(text, pc);
            op.isBranch && op.opcode == OP_SPECIAL ==> forall x :: CanGoTo(text, pc, x)
  {
    DecodedTransfer(text, pc);
    BranchOpDiverts(text, pc);
    hide DecodeFields, FetchedOp, Diverts, BranchTarget, JumpTarget, Opcode, Imm, Index, SignExtend16, RegisterJump;
  }

  lemma ReadyKeepsBuffer(m: Machine, p: Pipe, op: Op)
    requires op.stall == 0 && SameBranch(DecodedOp(m.text, op.pc), op) && BufferOk(m.text, p.bp.btb)
    ensures BufferOk(m.text, ExecuteReady(m, p, op).bp.btb)
  {
    var r := ExecOp(m, op, p.hi, p.lo);
    ReadyIsResolve(m, p, op);
    DecodedGoes(m.text, op.pc);
    ExecOpKeepsBranch(m, op, p.hi, p.lo);
    hide ExecOp, DecodedOp, CanGoTo, Update, BufferOk, ExecuteReady;
    if r.op.isBranch && r.op.branchDest != 0 {
      UpdateKeepsBuffer(m.text, p.bp, op.pc, r.op.branchTaken, OpTarget(r.op));
    }
  }

  lemma ExecuteKeepsBuffer(r: Ref, p: Pipe)
    requires WbOk(r, p) && FrontOk(r.m.text, p) && BufferOk(r.m.text, p.bp.btb)
    ensures BufferOk(r.m.text, ExecuteStage(r.m, p).bp.btb)
  {
    hide *;
    if p.executeOp.Some? && p.memOp.None? {
      ExecuteReads(r, p);
      ExecuteForm(r, p);
      var op := WithSources(p.executeOp.value, r.At(MemIndex(p)).regs);
      SourcesKeepBranch(p.executeOp.value, r.At(MemIndex(p)).regs);
      SamePc(p.executeOp.value, op);
      ReadyKeepsBuffer(r.m, p, op);
    } else {
      ExecuteIdles(r.m, p);
    }
  }

  lemma SamePc(a: Op, b: Op)
    ensures SameBranch(a, b) ==> b.pc == a.pc
  {
  }

  lemma DecodeKeepsBuffer(text: Text, p: Pipe)
    requires FrontOk(text, p) && BufferOk(text, p.bp.btb)
    ensures BufferOk(text, DecodeStage(p).bp.btb)
  {
    hide *;
    if p.executeOp.None? && p.decodeOp.Some? {
      FrontAtDecode(text, p);
      DecodeEnters(text, p, p.decodeOp.value.pc);
    } else {
      DecodeIdles(p);
    }
  }

  lemma DecodeIdles(p: Pipe)
    requires p.executeOp.Some? || p.decodeOp.None?
    ensures DecodeStage(p) == p
  {
    hide DecodeFields, DecodeBranch;
  }

  lemma FrontAtDecode(text: Text, p: Pipe)
    requires FrontOk(text, p) && p.executeOp.None? && p.decodeOp.Some?
    ensures AtDecode(text, p, p.decodeOp.value.pc)
  {
    hide FetchForm, DecodedOp, BtbOk, FetchedOp;
  }

  lemma DecodeEnters(text: Text, p: Pipe, pc: Word)
    requires AtDecode(text, p, pc) && BufferOk(text, p.bp.btb)
    ensures BufferOk(text, DecodeStage(p).bp.btb)
  {
    var op := DecodeFields(FetchedOp(text, pc));
    var s := Called(text, p, pc);
    DecodeResult(text, p, pc);
    DecodeCase(text, pc);
    JumpGoes(text, pc);
    assert s.bp.btb == p.bp.btb;
    hide Called, AtDecode, NamesTarget, AsksReturnStack, DecodeFields, FetchedOp, DecodeBranch, DecodeStage, Update,
         PopRas, BufferOk, CanGoTo, Redirects, JumpTarget, Index;
    if NamesTarget(text, pc) {
      JumpActs(s, op);
      UpdateKeepsBuffer(text, s.bp, pc, true, op.branchDest);
    } else if AsksReturnStack(text, pc) {
      ReturnActs(s, op);
      PopKeepsBuffer(s.bp);
    } else if op.isBranch {
      OthersRest(s, op);
    }
  }

  lemma JumpGoes(text: Text, pc: Word)
    ensures NamesTarget(text, pc) ==> CanGoTo(text, pc, JumpTarget(pc, Index(text(pc))))
  {
    ControlKinds(text(pc));
    hide Opcode, Index, JumpTarget, IsControl, Funct, BranchTarget, Imm, SignExtend16;
  }

  lemma FetchKeepsPredictor(p: Pipe, accept: bool)
    ensures FetchStage(p, accept).0.bp == p.bp
  {
    hide PredictedPc;
  }

  lemma RecoveredKeepsPredictor(p: Pipe)
    ensures Recovered(p).bp == p.bp
  {
  }

  lemma WbKeepsPredictor(p: Pipe)
    ensures WbStage(p).bp == p.bp
  {
  }

  lemma CycleKeepsBuffer(r: Ref, p: Pipe, mem: Mem, reqs: seq<Packet>, acceptData: bool, acceptInst: bool)
    requires p.run && PipeOk(r, p, mem, reqs) && BufferOk(r.m.text, p.bp.btb)
    ensures BufferOk(r.m.text, Cycle(r.m, p, acceptData, acceptInst).pipe.bp.btb)
  {
    hide *;
    var s1 := WbStage(p);
    WbKeepsPredictor(p);
    if Draining(p) {
      DrainedCycle(r, p, mem, reqs, acceptData, acceptInst);
    } else {
      BeforeExecuteHolds(r, p, mem, reqs, acceptData);
      WbKeeps(r, p, mem, reqs);
      MemFrame(s1, acceptData);
      var (s2, data) := MemStage(s1, acceptData);
      ReadyForExecute(r, s2, mem, Added(reqs, data, acceptData));
      ExecuteKeepsBuffer(r, s2);
      FrontAfterExecute(r, s2, mem, Added(reqs, data, acceptData));
      var s3 := ExecuteStage(r.m, s2);
      DecodeKeepsBuffer(r.m.text, s3);
      FetchKeepsPredictor(DecodeStage(s3), acceptInst);
      RecoveredKeepsPredictor(FetchStage(DecodeStage(s3), acceptInst).0);
      CycleIs(r.m, p, acceptData, acceptInst);
    }
  }

  lemma DrainedCycle(r: Ref, p: Pipe, mem: Mem, reqs: seq<Packet>, acceptData: bool, acceptInst: bool)
    requires p.run && PipeOk(r, p, mem, reqs) && Draining(p)
    ensures Cycle(r.m, p, acceptData, acceptInst).pipe == WbStage(p)
  {
    HaltKeeps(r, p, mem, reqs);
    hide PipeOk, WbStage;
  }

  lemma ReadyForExecute(r: Ref, p: Pipe, mem: Mem, reqs: seq<Packet>)
    requires BeforeExecute(r, p, mem, reqs)
    ensures WbOk(r, p) && FrontOk(r.m.text, p)
  {
    hide WbOk, FrontOk, MemOk, PathOk;
  }

  lemma CycleIs(m: Machine, p: Pipe, acceptData: bool, acceptInst: bool)
    requires WbStage(p).run
    ensures Cycle(m, p, acceptData, acceptInst).pipe ==
            Recovered(FetchStage(DecodeStage(ExecuteStage(m, MemStage(WbStage(p), acceptData).0)), acceptInst).0)
  {
    hide WbStage, MemStage, ExecuteStage, DecodeStage, FetchStage, Recovered;
  }

  lemma ReplyKeepsPredictor(p: Pipe, pkt: Packet)
    requires !pkt.isWrite ==> |pkt.data| == pkt.size
    ensures RecvResp(p, pkt).bp == p.bp
  {
    hide LoadReply, WordOf;
  }

  lemma EventKeepsBuffer(r: Ref, s: Sys, e: Event)
    requires Inv(r, s) && BufferOk(r.m.text, s.pipe.bp.btb)
    ensures BufferOk(r.m.text, Next(r.m, s, e).pipe.bp.btb)
  {
    hide Cycle, RecvResp, Inv, BufferOk, Served, After, Fetched, PipeOk;
    match e
    case Clock(acceptData, acceptInst) =>
      if s.pipe.run {
        InvPipe(r, s);
        CycleKeepsBuffer(r, s.pipe, s.mem, s.dataReqs, acceptData, acceptInst);
      }
    case AnswerData(i) =>
      if i < |s.dataReqs| {
        ServedSize(s.mem, s.dataReqs[i]);
        ReplyKeepsPredictor(s.pipe, Served(s.mem, s.dataReqs[i]));
      }
    case AnswerFetch(j) =>
      if j < |s.fetches| {
        FetchedSize(r.m.text, s.fetches[j]);
        ReplyKeepsPredictor(s.pipe, Fetched(r.m.text, s.fetches[j]));
      }
  }

  lemma {:induction false} RunKeepsBuffer(r: Ref, s: Sys, es: seq<Event>)
    requires Inv(r, s) && BufferOk(r.m.text, s.pipe.bp.btb) && Good(r, ExecIndex(RunSys(r.m, s, es).pipe))
    ensures BufferOk(r.m.text, RunSys(r.m, s, es).pipe.bp.btb)
    decreases |es|
  {
    hide Inv, Next, ExecIndex, BufferOk;
    if es != [] {
      var n := |es| - 1;
      var prior := RunSys(r.m, s, es[..n]);
      EventMonotone(r.m, prior, es[n]);
      assert Good(r, ExecIndex(prior.pipe));
      RunKeeps(r, s, es[..n]);
      RunKeepsBuffer(r, s, es[..n]);
      EventKeepsBuffer(r, prior, es[n]);
    }
  }

  /** In every state of every run from an empty buffer no two entries share a pc;
      what the buffer predicts for a J, JAL or conditional branch is the address
      that its word names, wrong paths included; and it predicts nothing for an
      instruction that is no transfer. */
  lemma PredictionsAreTargets(m: Machine, bp: Predictor, mem: Mem, es: seq<Event>)
    requires EmptyBtb(bp)
    requires Good(Ref(m, StartArch(mem)), ExecIndex(RunSys(m, StartSys(bp, mem), es).pipe))
    ensures var btb := RunSys(m, StartSys(bp, mem), es).pipe.bp.btb;
            UniquePcs(btb) && forall pc :: pc in Table(btb) ==> CanGoTo(m.text, pc, Table(btb)[pc])
  {
    var r := Ref(m, StartArch(mem));
    var s := StartSys(bp, mem);
    StartHolds(m, bp, mem);
    assert BufferOk(m.text, s.pipe.bp.btb);
    RunKeepsBuffer(r, s, es);
    hide RunSys, CanGoTo, Good, Inv, StartSys;
    EntriesShow(m.text, RunSys(m, s, es).pipe.bp.btb);
  }

  lemma EntriesShow(text: Text, btb: seq<BtbEntry>)
    requires BufferOk(text, btb)
    ensures UniquePcs(btb) && forall pc :: pc in Table(btb) ==> CanGoTo(text, pc, Table(btb)[pc])
  {
    forall pc | pc in Table(btb) ensures CanGoTo(text, pc, Table(btb)[pc]) {
      TableHas(btb, pc, Table(btb)[pc]);
    }
    hide CanGoTo, UniquePcs, Table;
  }
}
