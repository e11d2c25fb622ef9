/** Which final states of HI and LO a program can end in. Memories that answer
    late and memories that answer at once are both among those allowed, and an
    exit syscall does not keep the instruction behind it from executing. */
module PipeSchedules {
  import opened Words
  import opened Isa
  import opened Packets
  import opened PredictorSpec
  import opened PipeSpec
  import opened IsaAgreement
  import opened PipeSystem
  import opened PipeInvariant
  import opened PipeStages
  import opened PipeCycle
  import opened PipeRuns
  import opened PipeProgress

  // -------------------------------------------------------------- reachability

  /** The run exits with its instruction `n - 1`. */
  predicate ExitAt(r: Ref, n: nat) {
    n > 0 && Exits(r.m.text, r.At(n - 1)) && NoExitYet(r, n - 1)
  }

  ghost predicate Reaches(m: Machine, s0: Sys, s: Sys) {
    exists es: seq<Event> :: RunSys(m, s0, es) == s
  }

  /** `s` is reachable from `s0`, in a program that exits after `n` good
      instructions. */
  ghost predicate Live(r: Ref, s0: Sys, s: Sys, n: nat) {
    Reaches(r.m, s0, s) && Inv(r, s) && ExitAt(r, n) && Good(r, n)
  }

  lemma ReachNext(m: Machine, s0: Sys, s: Sys, e: Event)
    requires Reaches(m, s0, s)
    ensures Reaches(m, s0, Next(m, s, e))
  {
    hide Next, RunSys;
    var es: seq<Event> :| RunSys(m, s0, es) == s;
    RunOneMore(m, s0, es, e);
  }

  /** What comes right behind the exit syscall is good whatever it is. */
  lemma GoodBehind(r: Ref, n: nat)
    requires ExitAt(r, n) && Good(r, n)
    ensures Good(r, n + 1)
  {
    hide Supported, Exits, Run, NoExitYet;
    forall k: nat | k < n + 1 ensures GoodAt(r, k) {}
  }

  /** Before the exit syscall has retired the run goes on, and at most two
      instructions are beyond those retired. */
  lemma FewRetired(r: Ref, s: Sys, n: nat)
    requires Inv(r, s) && ExitAt(r, n)
    ensures s.pipe.run ==> s.pipe.retired < n
    ensures s.pipe.run && s.pipe.wbOp.Some? && s.pipe.retired == n - 1 ==> Draining(s.pipe)
    ensures s.pipe.run && Draining(s.pipe) ==> s.pipe.retired == n - 1
    ensures !s.pipe.run ==> s.pipe.retired == n
  {
    hide Exits, Run, Step, Completed, MemOk, FrontOk, PathOk, DrainOk, RefLog, AccessLog;
    var p := s.pipe;
    if p.run {
      if p.wbOp.Some? { WbExits(r, p); }
    } else {
      FirstExitIsUnique(r, p.retired, n);
    }
  }

  lemma WbExits(r: Ref, p: Pipe)
    requires WbOk(r, p) && p.wbOp.Some?
    ensures Draining(p) <==> Exits(r.m.text, r.At(p.retired))
  {
    hide Exits, Run, Step;
  }

  lemma WbStops(p: Pipe)
    requires p.run && Draining(p)
    ensures WbStage(p).retired == p.retired + 1 && WbStage(p).memOp == p.memOp && WbStage(p).wbOp.None?
            && !WbStage(p).run
    ensures forall m, acceptData, acceptInst ::
              Cycle(m, p, acceptData, acceptInst) == CycleResult(WbStage(p), None, None)
  {
    hide Retire;
  }

  /** No event executes anything beyond the instruction behind the exit. */
  lemma FewExecuted(r: Ref, s: Sys, e: Event, n: nat)
    requires Inv(r, s) && ExitAt(r, n)
    ensures ExecIndex(Next(r.m, s, e).pipe) <= n + 1
  {
    FewRetired(r, s, n);
    hide Inv, Cycle, RecvResp, ExitAt, Fetched, Served, After, Draining, ExecIndex;
    assert ExecIndex(s.pipe) <= n + 1 by { Counts(s.pipe); }
    match e
    case Clock(acceptData, acceptInst) => if s.pipe.run { FewInCycle(r.m, s.pipe, acceptData, acceptInst, n); }
    case AnswerData(i) =>
      if i < |s.dataReqs| {
        ServedSize(s.mem, s.dataReqs[i]);
        ReplyMonotone(s.pipe, Served(s.mem, s.dataReqs[i]));
      }
    case AnswerFetch(j) =>
      if j < |s.fetches| {
        FetchedSize(r.m.text, s.fetches[j]);
        ReplyMonotone(s.pipe, Fetched(r.m.text, s.fetches[j]));
      }
  }

  lemma Counts(p: Pipe)
    ensures p.retired <= ExecIndex(p) <= p.retired + 2
    ensures p.wbOp.None? ==> ExecIndex(p) <= p.retired + 1
    ensures !p.run && p.wbOp.None? ==> ExecIndex(p) <= p.retired + 1
  {
  }

  lemma FewInCycle(m: Machine, p: Pipe, acceptData: bool, acceptInst: bool, n: nat)
    requires p.run && p.retired < n && (p.wbOp.Some? && p.retired == n - 1 ==> Draining(p))
    ensures ExecIndex(Cycle(m, p, acceptData, acceptInst).pipe) <= n + 1
  {
    hide Draining, Cycle, ExecIndex;
    var q := Cycle(m, p, acceptData, acceptInst).pipe;
    Counts(q);
    if p.wbOp.Some? && p.retired == n - 1 {
      WbStops(p);
    } else {
      CycleRetires(m, p, acceptData, acceptInst);
      WbCounted(p);
    }
  }

  lemma WbCounted(p: Pipe)
    ensures WbStage(p).retired == MemIndex(p)
  {
  }

  lemma LiveNext(r: Ref, s0: Sys, s: Sys, n: nat, e: Event)
    requires Live(r, s0, s, n)
    ensures Live(r, s0, Next(r.m, s, e), n)
  {
    hide Inv, Next, Reaches, ExitAt, Good, ExecIndex;
    ReachNext(r.m, s0, s, e);
    FewExecuted(r, s, e, n);
    GoodBehind(r, n);
    GoodBelow(r, ExecIndex(Next(r.m, s, e).pipe), n + 1);
    EventKeeps(r, s, e);
  }

  lemma {:induction false} EveryRunIsLive(r: Ref, s0: Sys, es: seq<Event>, n: nat)
    requires Inv(r, s0) && ExitAt(r, n) && Good(r, n)
    ensures Live(r, s0, RunSys(r.m, s0, es), n)
    decreases |es|
  {
    hide Inv, Next, ExitAt, Good;
    if es == [] {
      assert RunSys(r.m, s0, []) == s0;
    } else {
      EveryRunIsLive(r, s0, es[..|es| - 1], n);
      hide Live;
      LiveNext(r, s0, RunSys(r.m, s0, es[..|es| - 1]), n, es[|es| - 1]);
    }
  }

  // ----------------------------------------------------------- late memories

  /** Nothing is decoded and no fetch is under way. */
  predicate FetchHeld(p: Pipe) {
    p.decodeOp.None? && (p.fetchOp.None? || !p.fetchOp.value.isFetchIssued)
  }

  /** `k` instructions have retired and nothing is in flight. */
  predicate Quiet(s: Sys, k: nat) {
    var p := s.pipe;
    && p.run && !p.recover && p.retired == k && s.fetches == []
    && p.wbOp.None? && p.memOp.None? && p.executeOp.None? && FetchHeld(p)
  }

  /** The fetch of the oldest instruction has been accepted. */
  predicate Fetching(s: Sys, k: nat) {
    var p := s.pipe;
    && p.run && !p.recover && p.retired == k
    && p.wbOp.None? && p.memOp.None? && p.executeOp.None? && p.decodeOp.None?
    && p.fetchOp.Some? && p.fetchOp.value.isFetchIssued && s.fetches == [FetchPacketFor(p.fetchOp.value.pc)]
  }

  /** The instruction word has come. */
  predicate Arrived(s: Sys, k: nat) {
    var p := s.pipe;
    && p.run && !p.recover && p.retired == k && s.fetches == []
    && p.wbOp.None? && p.memOp.None? && p.executeOp.None? && p.decodeOp.None?
    && p.fetchOp.Some? && p.fetchOp.value.isFetchIssued && p.fetchOp.value.readyForNextStage
  }

  lemma FrontCycle(m: Machine, p: Pipe, acceptData: bool, acceptInst: bool)
    requires p.run && !p.recover && p.wbOp.None? && p.memOp.None? && p.executeOp.None? && p.decodeOp.None?
    ensures var (q, inst) := FetchStage(p, acceptInst);
            Cycle(m, p, acceptData, acceptInst) == CycleResult(q, None, inst)
  {
    hide ExecuteStage, FetchStage;
    assert MemStage(p, acceptData) == (p, None);
    ExecuteWaits(m, p);
    FetchKeepsExecute(p, acceptInst);
  }

  lemma QuietFetches(m: Machine, s: Sys, k: nat)
    requires Quiet(s, k)
    ensures Fetching(Next(m, s, Clock(true, true)), k)
  {
    hide Cycle, PredictedPc;
    FrontCycle(m, s.pipe, true, true);
    assert s.fetches + [FetchStage(s.pipe, true).1.value] == [FetchStage(s.pipe, true).1.value];
  }

  lemma FetchArrives(m: Machine, s: Sys, k: nat)
    requires Fetching(s, k)
    ensures Arrived(Next(m, s, AnswerFetch(0)), k)
  {
    hide WordOf;
    assert Without(s.fetches, 0) == [];
  }

  /** The oldest instruction is in decode; behind it fetch is held, or a second
      fetch has been accepted. */
  predicate Decoding(s: Sys, k: nat, second: bool) {
    var p := s.pipe;
    && p.run && !p.recover && p.retired == k
    && p.wbOp.None? && p.memOp.None? && p.executeOp.None? && p.decodeOp.Some?
    && p.fetchOp.Some? && p.fetchOp.value.isFetchIssued == second
    && s.fetches == if second then [FetchPacketFor(p.fetchOp.value.pc)] else []
  }

  lemma ArrivedDecodes(m: Machine, s: Sys, k: nat, second: bool)
    requires Arrived(s, k)
    ensures Decoding(Next(m, s, Clock(true, second)), k, second)
  {
    hide Cycle, PredictedPc;
    FrontCycle(m, s.pipe, true, second);
    assert s.fetches + [FetchStage(s.pipe, second).1.value] == [FetchStage(s.pipe, second).1.value];
  }

  lemma DecodeKeepsFetch(p: Pipe)
    ensures DecodeStage(p).fetchOp == p.fetchOp
    ensures p.decodeOp.None? || p.executeOp.None? ==> DecodeStage(p).decodeOp.None?
  {
    hide DecodeFields, DecodeBranch, PushRas;
    if p.executeOp.None? && p.decodeOp.Some? {
      DecodeIsBranch(p);
      var op := DecodeFields(p.decodeOp.value);
      BranchKeepsFetch(BeforeBranch(p, op), op);
      hide DecodeStage;
    }
  }

  lemma BranchKeepsFetch(p: Pipe, op: Op)
    ensures var q := DecodeBranch(p, op).0;
            q.fetchOp == p.fetchOp && q.decodeOp == p.decodeOp
  {
    hide PopRas, Update, Funct, PredictTaken;
  }

  /** A fetch that is held stays so as long as no request is accepted. */
  lemma HeldTail(p: Pipe)
    requires p.decodeOp.None? || p.executeOp.None?
    requires p.fetchOp.None? || !p.fetchOp.value.isFetchIssued
    ensures FetchHeld(Tail(p, false))
    ensures p.executeOp.None? && p.decodeOp.None? ==> Tail(p, false).executeOp.None?
  {
    hide DecodeStage, PredictedPc;
    DecodeKeepsFetch(p);
    if p.decodeOp.None? { assert DecodeStage(p) == p by { DecodeIdle(p); } }
  }

  lemma DecodeIdle(p: Pipe)
    requires p.decodeOp.None?
    ensures DecodeStage(p) == p
  {
  }

  lemma CycleIsTail(m: Machine, p: Pipe, acceptData: bool, acceptInst: bool)
    requires WbStage(p).run
    ensures Cycle(m, p, acceptData, acceptInst).pipe
            == Tail(ExecuteStage(m, MemStage(WbStage(p), acceptData).0), acceptInst)
  {
    hide WbStage, MemStage, ExecuteStage, DecodeStage, FetchStage, Recovered;
  }

  /** The oldest instruction is in execute, or in memory, or in write back, and
      nothing younger is in flight. */
  predicate Alone(s: Sys, k: nat) {
    s.pipe.run && s.pipe.retired == k && s.fetches == [] && FetchHeld(s.pipe)
  }

  predicate AtExecute(s: Sys, k: nat) {
    Alone(s, k) && s.pipe.executeOp.Some? && s.pipe.memOp.None? && s.pipe.wbOp.None?
  }

  predicate AtMemory(s: Sys, k: nat) {
    Alone(s, k) && s.pipe.executeOp.None? && s.pipe.memOp.Some? && s.pipe.wbOp.None?
  }

  predicate AtWriteBack(s: Sys, k: nat) {
    Alone(s, k) && s.pipe.executeOp.None? && s.pipe.memOp.None? && s.pipe.wbOp.Some?
  }

  lemma RetiredSame(m: Machine, p: Pipe, acceptData: bool, acceptInst: bool)
    requires p.wbOp.None?
    ensures WbStage(p) == p
    ensures var q := Cycle(m, p, acceptData, acceptInst).pipe; q.retired == p.retired && q.run == p.run
  {
    CycleRetires(m, p, acceptData, acceptInst);
    hide Cycle;
  }

  lemma NoneAdded(q: seq<Packet>, offered: Option<Packet>)
    ensures Added(q, offered, false) == q
  {
  }

  lemma DecodingExecutes(m: Machine, s: Sys, k: nat)
    requires Decoding(s, k, false)
    ensures AtExecute(Next(m, s, Clock(true, false)), k)
  {
    hide Cycle, Tail, FetchStage, DecodeStage, ExecuteStage, Added;
    var p := s.pipe;
    RetiredSame(m, p, true, false);
    CycleOfDecode(m, p, true, false);
    CycleIsTail(m, p, true, false);
    assert MemStage(p, true) == (p, None);
    ExecuteWaits(m, p);
    HeldTail(p);
    NoneAdded(s.fetches, Cycle(m, p, true, false).inst);
  }

  lemma ExecuteEmpties(r: Ref, p: Pipe, mem: Mem, reqs: seq<Packet>)
    requires p.run && PipeOk(r, p, mem, reqs) && p.wbOp.None? && p.memOp.None? && p.executeOp.Some?
    ensures var q := ExecuteStage(r.m, p);
            q.executeOp.None? && q.decodeOp == p.decodeOp && q.fetchOp == p.fetchOp
  {
    hide ExecuteStage, WbOk, FrontOk, MemOk, PathOk, Run, ExecuteReady, WithSources, ResolveBranch, ExecOp;
    var op := WithSources(p.executeOp.value, r.At(MemIndex(p)).regs);
    ExecuteReads(r, p);
    ReadyIsResolve(r.m, p, op);
    var e := ExecOp(r.m, op, p.hi, p.lo);
    ResolveFrame(p.(hi := e.hi, lo := e.lo), e.op);
  }

  lemma ExecutingMoves(r: Ref, s: Sys, k: nat)
    requires Inv(r, s) && AtExecute(s, k)
    ensures AtMemory(Next(r.m, s, Clock(true, false)), k)
  {
    hide Cycle, Tail, ExecuteStage, Added, PipeOk, NoExitYet, RefLog, AccessLog;
    var p := s.pipe;
    RetiredSame(r.m, p, true, false);
    CycleOfExecute(r, p, s.mem, s.dataReqs, true, false);
    CycleIsTail(r.m, p, true, false);
    assert MemStage(p, true) == (p, None);
    ExecuteEmpties(r, p, s.mem, s.dataReqs);
    HeldTail(ExecuteStage(r.m, p));
    NoneAdded(s.fetches, Cycle(r.m, p, true, false).inst);
  }

  /** A cycle in the memory stage: the op waits there or goes to write back. */
  lemma MemoryCycle(m: Machine, s: Sys, k: nat)
    requires AtMemory(s, k)
    ensures var q := Next(m, s, Clock(true, false));
            var t := MemStage(s.pipe, true).0;
            if t.memOp.Some? then AtMemory(q, k) && q.pipe.memOp == t.memOp else AtWriteBack(q, k)
  {
    hide Cycle, Tail, ExecuteStage, MemStage, Added;
    var p := s.pipe;
    RetiredSame(m, p, true, false);
    CycleOfMem(m, p, true, false);
    CycleIsTail(m, p, true, false);
    MemFrame(p, true);
    var t := MemStage(p, true).0;
    ExecuteWaits(m, t);
    HeldTail(t);
    if t.memOp.None? { TailSame(t); }
    NoneAdded(s.fetches, Cycle(m, p, true, false).inst);
  }

  lemma TailSame(p: Pipe)
    ensures Tail(p, false).memOp == p.memOp && Tail(p, false).wbOp == p.wbOp
  {
    hide DecodeStage, FetchStage, Recovered;
    DecodeSameBack(p);
    FetchSameBack(DecodeStage(p), false);
    RecoveredSameBack(FetchStage(DecodeStage(p), false).0);
  }

  /** The op in the memory stage is ready to leave: no access, or an answered
      one. */
  predicate Leaves(op: Op) {
    !op.isMem || PipeStages.Answered(op)
  }

  lemma LeavesNow(m: Machine, s: Sys, k: nat)
    requires AtMemory(s, k) && Leaves(s.pipe.memOp.value)
    ensures AtWriteBack(Next(m, s, Clock(true, false)), k)
  {
    hide Next, Alone;
    MemoryCycle(m, s, k);
    MemLeaves(s.pipe);
  }

  lemma MemLeaves(p: Pipe)
    requires p.memOp.Some?
    ensures Leaves(p.memOp.value) ==> MemStage(p, true).0.memOp.None?
    ensures !Leaves(p.memOp.value) ==>
              var t := MemStage(p, true).0;
              t.memOp.Some? && t.memOp.value.isMem && t.memOp.value.memTried && !t.memOp.value.waitOnPktIssue
  {
    BypassFlags(p, p.memOp.value);
    hide Bypassed, DataPacket;
  }

  /** An access whose request has been accepted. */
  predicate Requested(op: Op) {
    op.isMem && op.memTried && !op.waitOnPktIssue
  }

  lemma RequestMade(m: Machine, s: Sys, k: nat)
    requires AtMemory(s, k) && !Leaves(s.pipe.memOp.value)
    ensures var q := Next(m, s, Clock(true, false));
            AtMemory(q, k) && Requested(q.pipe.memOp.value)
  {
    hide Next, Alone, Leaves;
    MemoryCycle(m, s, k);
    MemLeaves(s.pipe);
  }

  lemma ReplyMakesReady(r: Ref, s: Sys, k: nat)
    requires Inv(r, s) && AtMemory(s, k) && Requested(s.pipe.memOp.value) && !Leaves(s.pipe.memOp.value)
    ensures var q := Next(r.m, s, AnswerData(0));
            AtMemory(q, k) && Leaves(q.pipe.memOp.value)
  {
    hide Served, After, RecvResp, Run, Completed, Step, AccessOp, GoodAccess, AccessOf, FrontOk, PathOk, WbOk, RefLog,
         AccessLog, NoExitYet, LoadReply;
    NotDraining(s.pipe);
    assert MemOk(r, s.pipe, s.mem, s.dataReqs);
    var p := s.pipe;
    assert s.dataReqs == [p.memOp.value.memPkt.value];
    AccessAnswered(r.m.text, r.At(MemIndex(p)), p, p.memOp.value, s.mem, s.dataReqs);
    ServedSize(s.mem, s.dataReqs[0]);
    ReplySlots(p, Served(s.mem, s.dataReqs[0]));
  }

  lemma NotDraining(p: Pipe)
    requires p.wbOp.None?
    ensures !Draining(p)
  {
  }

  lemma ReplySlots(p: Pipe, pkt: Packet)
    requires !pkt.isWrite ==> |pkt.data| == pkt.size
    requires RecvResp(p, pkt) == p.(memOp := RecvResp(p, pkt).memOp)
    ensures var q := RecvResp(p, pkt);
            q.run == p.run && q.fetchOp == p.fetchOp && q.decodeOp == p.decodeOp
  {
    hide RecvResp;
  }

  lemma MemoryDone(r: Ref, s0: Sys, s: Sys, n: nat, k: nat) returns (q: Sys)
    requires Live(r, s0, s, n) && AtMemory(s, k)
    ensures Live(r, s0, q, n) && AtWriteBack(q, k)
  {
    assert Inv(r, s);
    hide *;
    q := s;
    if !Leaves(q.pipe.memOp.value) && !Requested(q.pipe.memOp.value) {
      RequestMade(r.m, q, k);
      LiveNext(r, s0, q, n, Clock(true, false));
      q := Next(r.m, q, Clock(true, false));
    }
    if !Leaves(q.pipe.memOp.value) {
      LiveInv(r, s0, q, n);
      ReplyMakesReady(r, q, k);
      LiveNext(r, s0, q, n, AnswerData(0));
      q := Next(r.m, q, AnswerData(0));
    }
    LeavesNow(r.m, q, k);
    LiveNext(r, s0, q, n, Clock(true, false));
    q := Next(r.m, q, Clock(true, false));
  }

  lemma LiveInv(r: Ref, s0: Sys, s: Sys, n: nat)
    requires Live(r, s0, s, n)
    ensures Inv(r, s) && ExitAt(r, n) && !s.pipe.recover
  {
    hide WbOk, MemOk, FrontOk, PathOk, DrainOk, HaltOk, RefLog, AccessLog, ExitAt, Reaches, Good;
  }

  /** From one quiet state to the next, or to the last write back. */
  lemma OneAlone(r: Ref, s0: Sys, s: Sys, n: nat, k: nat) returns (q: Sys)
    requires Live(r, s0, s, n) && Quiet(s, k)
    ensures Live(r, s0, q, n) && AtWriteBack(q, k)
  {
    hide *;
    QuietFetches(r.m, s, k);
    LiveNext(r, s0, s, n, Clock(true, true));
    q := Next(r.m, s, Clock(true, true));
    FetchArrives(r.m, q, k);
    LiveNext(r, s0, q, n, AnswerFetch(0));
    q := Next(r.m, q, AnswerFetch(0));
    ArrivedDecodes(r.m, q, k, false);
    LiveNext(r, s0, q, n, Clock(true, false));
    q := Next(r.m, q, Clock(true, false));
    DecodingExecutes(r.m, q, k);
    LiveNext(r, s0, q, n, Clock(true, false));
    q := Next(r.m, q, Clock(true, false));
    LiveInv(r, s0, q, n);
    ExecutingMoves(r, q, k);
    LiveNext(r, s0, q, n, Clock(true, false));
    q := Next(r.m, q, Clock(true, false));
    q := MemoryDone(r, s0, q, n, k);
  }

  lemma RetiresAlone(m: Machine, s: Sys, k: nat)
    requires AtWriteBack(s, k) && !Draining(s.pipe) && !Next(m, s, Clock(true, false)).pipe.recover
    ensures Quiet(Next(m, s, Clock(true, false)), k + 1)
  {
    hide Cycle, Tail, ExecuteStage, Added;
    var p := s.pipe;
    var w := WbStage(p);
    CycleRetires(m, p, true, false);
    CycleIsTail(m, p, true, false);
    assert w.executeOp.None? && w.memOp.None? && w.decodeOp == p.decodeOp && w.fetchOp == p.fetchOp && w.wbOp.None?;
    assert MemStage(w, true) == (w, None);
    ExecuteWaits(m, w);
    HeldTail(w);
    TailSame(w);
    NoneAdded(s.fetches, Cycle(m, p, true, false).inst);
  }

  /** With late answers the pipeline empties between any two instructions. */
  lemma {:induction false} QuietAt(r: Ref, s0: Sys, n: nat, k: nat) returns (q: Sys)
    requires Live(r, s0, s0, n) && Quiet(s0, 0) && k < n
    ensures Live(r, s0, q, n) && Quiet(q, k)
    decreases k
  {
    hide *;
    if k == 0 {
      q := s0;
    } else {
      q := QuietAt(r, s0, n, k - 1);
      q := OneAlone(r, s0, q, n, k - 1);
      LiveInv(r, s0, q, n);
      FewRetired(r, q, n);
      NotLast(q, k - 1, n);
      LiveNext(r, s0, q, n, Clock(true, false));
      LiveInv(r, s0, Next(r.m, q, Clock(true, false)), n);
      RetiresAlone(r.m, q, k - 1);
      q := Next(r.m, q, Clock(true, false));
    }
  }

  lemma NotLast(s: Sys, k: nat, n: nat)
    requires AtWriteBack(s, k) && k < n - 1 && (s.pipe.run && Draining(s.pipe) ==> s.pipe.retired == n - 1)
    ensures !Draining(s.pipe)
  {
    hide Draining;
  }

  // --------------------------------------------------------- prompt memories

  lemma SyscallIsNoBranch(m: Machine, t: Arch)
    requires Exits(m.text, t)
    ensures !DecodedOp(m.text, t.pc).isBranch && !DecodeFields(FetchedOp(m.text, t.pc)).isBranch
    ensures !Executed(m, t).op.isBranch && !Diverts(m.text, t.pc)
  {
    assert !IsControl(m.text(t.pc)) by { hide Opcode, Rs, Rt, Rd, Sa, Funct, Imm, Index; }
    hide *;
    BranchOpIsControl(m.text, t.pc);
    ControlDiverts(m.text, t.pc);
    ExecutedKeepsBranch(m, t);
    DecodedIs(m.text, t.pc);
  }

  lemma DecodedIs(text: Text, pc: Word)
    ensures DecodedOp(text, pc).isBranch == DecodeFields(FetchedOp(text, pc)).isBranch
  {
    hide DecodeFields;
  }

  /** The exit syscall in decode, execute and memory, the instruction behind it
      one stage behind. */
  predicate ExitDecoding(s: Sys, k: nat) {
    var p := s.pipe;
    && p.run && !p.recover && p.retired == k
    && p.wbOp.None? && p.memOp.None? && p.executeOp.None? && p.decodeOp.Some?
    && p.fetchOp.Some? && p.fetchOp.value.isFetchIssued && p.fetchOp.value.readyForNextStage
  }

  predicate ExitExecuting(s: Sys, k: nat) {
    var p := s.pipe;
    && p.run && !p.recover && p.retired == k && p.wbOp.None? && p.memOp.None?
    && p.executeOp.Some? && p.decodeOp.Some? && p.fetchOp.Some?
  }

  predicate ExitInMemory(s: Sys, k: nat) {
    var p := s.pipe;
    p.run && p.retired == k && p.wbOp.None? && p.memOp.Some? && p.executeOp.Some?
  }

  lemma SecondArrives(m: Machine, s: Sys, k: nat)
    requires Decoding(s, k, true)
    ensures ExitDecoding(Next(m, s, AnswerFetch(0)), k)
  {
    hide WordOf;
  }

  /** The oldest op of a state on the path. */
  lemma OldestDecoding(r: Ref, s: Sys, k: nat)
    requires Inv(r, s) && ExitDecoding(s, k)
    ensures s.pipe.decodeOp.value == FetchedOp(r.m.text, r.At(k).pc)
  {
    hide Run, FetchedOp, DecodedOp, FetchForm, BtbOk, Linked, WbOk, MemOk, RefLog, AccessLog;
    NotDraining(s.pipe);
    assert Head(s.pipe) == r.At(k).pc;
  }

  lemma OldestExecuting(r: Ref, s: Sys, k: nat)
    requires Inv(r, s) && ExitExecuting(s, k)
    ensures s.pipe.executeOp.value == DecodedOp(r.m.text, r.At(k).pc)
    ensures PipeOk(r, s.pipe, s.mem, s.dataReqs)
    ensures ExecuteStage(r.m, s.pipe) ==
              var e := Executed(r.m, r.At(k));
              ResolveBranch(s.pipe.(hi := e.hi, lo := e.lo), e.op).(executeOp := None, memOp := Some(e.op))
  {
    hide Run, FetchedOp, DecodedOp, FetchForm, BtbOk, Linked, WbOk, RefLog, AccessLog, ExecuteStage, ResolveBranch,
         Executed;
    NotDraining(s.pipe);
    assert Head(s.pipe) == r.At(k).pc;
    ExecuteIsStep(r, s.pipe);
  }

  lemma DecodePlain(m: Machine, s: Sys, k: nat)
    requires ExitDecoding(s, k) && !DecodeFields(s.pipe.decodeOp.value).isBranch
    ensures ExitExecuting(Next(m, s, Clock(true, false)), k)
  {
    var p := s.pipe;
    hide ExecuteStage, DecodeFields, PredictedPc, PushRas;
    assert MemStage(p, true) == (p, None);
    ExecuteWaits(m, p);
    DecodeIsBranch(p);
    hide DecodeStage;
  }

  lemma DecodeExit(r: Ref, s: Sys, k: nat)
    requires Inv(r, s) && ExitDecoding(s, k) && Exits(r.m.text, r.At(k))
    ensures ExitExecuting(Next(r.m, s, Clock(true, false)), k)
  {
    OldestDecoding(r, s, k);
    SyscallIsNoBranch(r.m, r.At(k));
    hide *;
    DecodePlain(r.m, s, k);
  }

  lemma ExecutePlain(m: Machine, s: Sys, k: nat, p1: Pipe, op: Op)
    requires ExitExecuting(s, k) && p1 == s.pipe.(hi := p1.hi, lo := p1.lo)
    requires ExecuteStage(m, s.pipe) == p1.(executeOp := None, memOp := Some(op))
    ensures ExitInMemory(Next(m, s, Clock(true, false)), k)
  {
    var p := s.pipe;
    hide ExecuteStage, DecodeStage, FetchStage, Cycle;
    assert MemStage(p, true) == (p, None);
    var x := ExecuteStage(m, p);
    DecodeMoves(x);
    DecodeSameBack(x);
    var y := DecodeStage(x);
    FetchKeepsExecute(y, false);
    FetchSameBack(y, false);
    RetiredSame(m, p, true, false);
    CycleIsTail(m, p, true, false);
    RecoveredSameBack(FetchStage(y, false).0);
  }

  lemma ExecuteExit(r: Ref, s: Sys, k: nat)
    requires Inv(r, s) && ExitExecuting(s, k) && Exits(r.m.text, r.At(k))
    ensures ExitInMemory(Next(r.m, s, Clock(true, false)), k)
  {
    OldestExecuting(r, s, k);
    SyscallIsNoBranch(r.m, r.At(k));
    var e := Executed(r.m, r.At(k));
    var p1 := s.pipe.(hi := e.hi, lo := e.lo);
    hide *;
    ResolvedStays(p1, e.op);
    ExecutePlain(r.m, s, k, p1, e.op);
  }

  /** The instruction behind the exit executes in the cycle in which the exit
      leaves the memory stage. */
  lemma BehindExitExecutes(r: Ref, s: Sys, k: nat)
    requires Inv(r, s) && ExitInMemory(s, k) && Exits(r.m.text, r.At(k))
    ensures var q := Next(r.m, s, Clock(true, false)).pipe;
            q.run && q.retired == k && q.wbOp.Some? && q.memOp.Some?
  {
    var p := s.pipe;
    NotDraining(p);
    assert PipeOk(r, p, s.mem, s.dataReqs) && MemIndex(p) == k;
    assert !p.memOp.value.isMem by { ExitIsNoAccess(r, p, s.mem, s.dataReqs, k); }
    hide Inv, Exits, Run, ExecuteStage, PipeOk, DecodeStage, FetchStage, Cycle, Tail, WbOk, MemOk, FrontOk, PathOk,
         ExecIndex;
    BeforeExecuteHolds(r, p, s.mem, s.dataReqs, true);
    RetiredSame(r.m, p, true, false);
    var t := MemStage(p, true).0;
    assert t == p.(memOp := None, wbOp := p.memOp);
    ExecuteCounts(r, t);
    ExecuteFrame(r, t);
    var x := ExecuteStage(r.m, t);
    CountsMem(t, x);
    CycleIsTail(r.m, p, true, false);
    TailSame(x);
  }

  lemma CountsMem(p: Pipe, q: Pipe)
    requires p.memOp.None? && ExecIndex(q) == ExecIndex(p) + 1 && q.wbOp == p.wbOp && q.retired == p.retired
    ensures q.memOp.Some?
  {
  }

  lemma ExitIsNoAccess(r: Ref, p: Pipe, mem: Mem, reqs: seq<Packet>, k: nat)
    requires p.run && PipeOk(r, p, mem, reqs) && p.wbOp.None? && p.memOp.Some? && MemIndex(p) == k
             && Exits(r.m.text, r.At(k))
    ensures !p.memOp.value.isMem
  {
    hide Run, Completed, Step, FrontOk, PathOk, WbOk, GoodAccess, AccessOf, Supported;
    NotDraining(p);
    assert OpInMemory(r.m.text, r.At(k), p.memOp.value, mem, reqs);
  }

  /** From a quiet state in front of the exit to a state that is about to stop
      with the next instruction executed. */
  lemma OneBehind(r: Ref, s0: Sys, s: Sys, n: nat, k: nat) returns (q: Sys)
    requires Live(r, s0, s, n) && Quiet(s, k) && k == n - 1
    ensures Live(r, s0, q, n) && q.pipe.run && q.pipe.retired == k && q.pipe.wbOp.Some? && q.pipe.memOp.Some?
  {
    hide *;
    q := BothArrive(r, s0, s, n, k);
    LiveExits(r, s0, q, n);
    LiveInv(r, s0, q, n);
    DecodeExit(r, q, k);
    LiveNext(r, s0, q, n, Clock(true, false));
    q := Next(r.m, q, Clock(true, false));
    LiveInv(r, s0, q, n);
    ExecuteExit(r, q, k);
    LiveNext(r, s0, q, n, Clock(true, false));
    q := Next(r.m, q, Clock(true, false));
    LiveInv(r, s0, q, n);
    BehindExitExecutes(r, q, k);
    LiveNext(r, s0, q, n, Clock(true, false));
    q := Next(r.m, q, Clock(true, false));
  }

  lemma LiveExits(r: Ref, s0: Sys, s: Sys, n: nat)
    requires Live(r, s0, s, n)
    ensures n > 0 && Exits(r.m.text, r.At(n - 1))
  {
    hide Inv, Exits, Run, Reaches, Good, NoExitYet;
  }

  lemma BothArrive(r: Ref, s0: Sys, s: Sys, n: nat, k: nat) returns (q: Sys)
    requires Live(r, s0, s, n) && Quiet(s, k)
    ensures Live(r, s0, q, n) && ExitDecoding(q, k)
  {
    hide *;
    QuietFetches(r.m, s, k);
    LiveNext(r, s0, s, n, Clock(true, true));
    q := Next(r.m, s, Clock(true, true));
    FetchArrives(r.m, q, k);
    LiveNext(r, s0, q, n, AnswerFetch(0));
    q := Next(r.m, q, AnswerFetch(0));
    ArrivedDecodes(r.m, q, k, true);
    LiveNext(r, s0, q, n, Clock(true, true));
    q := Next(r.m, q, Clock(true, true));
    SecondArrives(r.m, q, k);
    LiveNext(r, s0, q, n, AnswerFetch(0));
    q := Next(r.m, q, AnswerFetch(0));
  }

  // ------------------------------------------------------------- HI and LO

  /** Retiring the exit stops the run and leaves the memory stage as it is. */
  lemma ExitStops(r: Ref, s: Sys, n: nat)
    requires Inv(r, s) && ExitAt(r, n) && s.pipe.run && s.pipe.wbOp.Some? && s.pipe.retired == n - 1
    ensures var q := Next(r.m, s, Clock(true, true)).pipe;
            !q.run && q.memOp == s.pipe.memOp
  {
    FewRetired(r, s, n);
    hide Inv, ExitAt, Draining, Cycle;
    WbStops(s.pipe);
  }

  /** A run of this program that stops with HI and LO as given. */
  ghost predicate StopsWith(m: Machine, s0: Sys, hi: Word, lo: Word) {
    exists es: seq<Event> :: var p := RunSys(m, s0, es).pipe; !p.run && p.hi == hi && p.lo == lo
  }

  lemma StopShows(r: Ref, s0: Sys, s: Sys, n: nat)
    requires Live(r, s0, s, n) && !s.pipe.run
    ensures HiLoAfterExit(r.m, r.At(n), s.pipe) && StopsWith(r.m, s0, s.pipe.hi, s.pipe.lo)
  {
    assert Inv(r, s) && ExitAt(r, n) && Reaches(r.m, s0, s);
    hide RunSys, ExitAt, Run, Exits, RefLog, AccessLog, Executed, Good, Live, HiLoAfterExit;
    FewRetired(r, s, n);
    var es: seq<Event> :| RunSys(r.m, s0, es) == s;
  }

  /** Both outcomes happen: memories that answer late stop the program with HI
      and LO as the exit syscall leaves them, and memories that answer at once
      stop it with HI and LO as the instruction behind the syscall leaves them. */
  lemma BothOutcomes(m: Machine, bp: Predictor, mem: Mem, n: nat)
    requires EmptyBtb(bp) && ExitAt(Ref(m, StartArch(mem)), n) && Good(Ref(m, StartArch(mem)), n)
    ensures var t := Ref(m, StartArch(mem)).At(n);
            && StopsWith(m, StartSys(bp, mem), t.hi, t.lo)
            && StopsWith(m, StartSys(bp, mem), Executed(m, t).hi, Executed(m, t).lo)
  {
    var r := Ref(m, StartArch(mem));
    var s0 := StartSys(bp, mem);
    StartHolds(m, bp, mem);
    assert Quiet(s0, 0);
    EveryRunIsLive(r, s0, [], n);
    assert n > 0;
    assert RunSys(m, s0, []) == s0;
    hide RunSys, ExitAt, Good, Live, Quiet, AtWriteBack, Inv, Next, Executed, Run, StartSys, StopsWith;
    var quiet := QuietAt(r, s0, n, n - 1);
    var late := OneAlone(r, s0, quiet, n, n - 1);
    LateIs(late, n - 1);
    LiveInv(r, s0, late, n);
    ExitStops(r, late, n);
    LiveNext(r, s0, late, n, Clock(true, true));
    StopShows(r, s0, Next(m, late, Clock(true, true)), n);
    var prompt := OneBehind(r, s0, quiet, n, n - 1);
    LiveInv(r, s0, prompt, n);
    ExitStops(r, prompt, n);
    LiveNext(r, s0, prompt, n, Clock(true, true));
    StopShows(r, s0, Next(m, prompt, Clock(true, true)), n);
  }

  lemma LateIs(s: Sys, k: nat)
    requires AtWriteBack(s, k)
    ensures s.pipe.run && s.pipe.wbOp.Some? && s.pipe.retired == k && s.pipe.memOp.None?
  {
  }

  /** All stopped runs of the program agree on HI and LO. */
  ghost predicate HiLoAgree(m: Machine, bp: Predictor, mem: Mem) {
    forall es1: seq<Event>, es2: seq<Event> ::
      var p1, p2 := RunSys(m, StartSys(bp, mem), es1).pipe, RunSys(m, StartSys(bp, mem), es2).pipe;
      !p1.run && !p2.run ==> p1.hi == p2.hi && p1.lo == p2.lo
  }

  /** Timing shows in HI and LO exactly when the instruction behind the exit
      syscall would change them. */
  lemma HiLoAgreeIff(m: Machine, bp: Predictor, mem: Mem, n: nat)
    requires EmptyBtb(bp) && ExitAt(Ref(m, StartArch(mem)), n) && Good(Ref(m, StartArch(mem)), n)
    ensures HiLoAgree(m, bp, mem) <==> HiLoSettled(m, Ref(m, StartArch(mem)).At(n))
  {
    var r := Ref(m, StartArch(mem));
    var s0 := StartSys(bp, mem);
    StartHolds(m, bp, mem);
    BothOutcomes(m, bp, mem, n);
    hide RunSys, ExitAt, Good, Live, Inv, Next, Executed, Run, StartSys, EmptyBtb;
    if HiLoSettled(m, r.At(n)) {
      forall es1: seq<Event>, es2: seq<Event> | !RunSys(m, s0, es1).pipe.run && !RunSys(m, s0, es2).pipe.run
        ensures RunSys(m, s0, es1).pipe.hi == RunSys(m, s0, es2).pipe.hi
        ensures RunSys(m, s0, es1).pipe.lo == RunSys(m, s0, es2).pipe.lo
      {
        EveryRunIsLive(r, s0, es1, n);
        EveryRunIsLive(r, s0, es2, n);
        StopShows(r, s0, RunSys(m, s0, es1), n);
        StopShows(r, s0, RunSys(m, s0, es2), n);
      }
    }
  }

  /** ADDIU of 10 to register 2, SYSCALL, MTHI of register 2. */
  predicate MovesBehindExit(text: Text) {
    text(0x0040_0000) == 0x2402_000A && text(0x0040_0004) == 0x0000_000C && text(0x0040_0008) == 0x0040_0011
  }

  lemma FirstTwo(m: Machine, mem: Mem)
    requires MovesBehindExit(m.text)
    ensures var r := Ref(m, StartArch(mem));
            && r.At(1) == StartArch(mem).(regs := StartArch(mem).regs[2 := 10], pc := 0x0040_0004)
            && r.At(2) == r.At(1).(pc := 0x0040_0008)
            && ExitAt(r, 2) && Good(r, 2)
  {
    var r := Ref(m, StartArch(mem));
    assert Opcode(0x2402_000A) == 9 && Rs(0x2402_000A) == 0 && Rt(0x2402_000A) == 2 && Imm(0x2402_000A) == 10;
    assert SignExtend16(10) == 10;
    assert Decode(0x2402_000A) == AluImm(Add, 0, 2, 10);
    assert Opcode(0x0000_000C) == 0 && Funct(0x0000_000C) == 0x0C && Rd(0x0000_000C) == 0;
    assert Decode(0x0000_000C) == Syscall;
    assert r.At(0) == StartArch(mem);
    NextAt(r, 0);
    NextAt(r, 1);
    hide Decode, Opcode, Run;
    assert Step(m.text, r.At(0)) == StartArch(mem).(regs := StartArch(mem).regs[2 := 10], pc := 0x0040_0004);
    assert GoodAt(r, 0) && GoodAt(r, 1);
  }

  lemma MoveExecuted(m: Machine, t: Arch)
    requires m.text(t.pc) == 0x0040_0011
    ensures Executed(m, t).hi == Read(t.regs, 2) && Executed(m, t).lo == t.lo
  {
    assert Opcode(0x0040_0011) == 0 && Funct(0x0040_0011) == 0x11 && Rs(0x0040_0011) == 2 && Rd(0x0040_0011) == 0;
    hide Opcode, Rs, Rt, Rd, Sa, Funct, Imm, Index, SpecialValue;
  }

  /** The timing shows: this program can end with HI = 0, and with HI = 10. */
  lemma TimingShowsInHi(m: Machine, bp: Predictor, mem: Mem)
    requires EmptyBtb(bp) && MovesBehindExit(m.text)
    ensures StopsWith(m, StartSys(bp, mem), 0, 0) && StopsWith(m, StartSys(bp, mem), 10, 0)
    ensures !HiLoAgree(m, bp, mem)
  {
    hide EmptyBtb, ExitAt, Good, Run, StopsWith, Executed, StartSys, HiLoAgree;
    var r := Ref(m, StartArch(mem));
    FirstTwo(m, mem);
    MoveExecuted(m, r.At(2));
    BothOutcomes(m, bp, mem, 2);
    HiLoAgreeIff(m, bp, mem, 2);
  }
}
