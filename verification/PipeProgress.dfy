/** Bounded progress: memories that never let a request wait for more than a
    given number of cycles make the pipeline retire an instruction within a
    linear function of that number, from every state it can be in. */
module PipeProgress {
  import opened Isa
  import opened Packets
  import opened PredictorSpec
  import opened PipeSpec
  import opened IsaAgreement
  import opened PipeSystem
  import opened PipeInvariant
  import opened PipeStages
  import opened PipeCycle
  import opened PipeRuns

  /** What a round brings from outside: replies, in any order, then one cycle. */
  datatype Round = Round(replies: seq<Reply>, acceptData: bool, acceptInst: bool)

  datatype Reply = DataReply(i: nat) | FetchReply(j: nat)

  function EventOf(x: Reply): Event {
    match x case DataReply(i) => AnswerData(i) case FetchReply(j) => AnswerFetch(j)
  }

  function Replied(m: Machine, s: Sys, replies: seq<Reply>): Sys {
    if replies == [] then s
    else Next(m, Replied(m, s, replies[..|replies| - 1]), EventOf(replies[|replies| - 1]))
  }

  /** A request is being refused, or accepted and not answered, or neither. */
  datatype Phase = Idle | Refused | Pending

  function DataPhase(p: Pipe): Phase {
    if p.memOp.None? || !p.memOp.value.isMem || !p.memOp.value.memTried then Idle
    else if p.memOp.value.waitOnPktIssue then Refused
    else if !p.memOp.value.readyForNextStage then Pending
    else Idle
  }

  function FetchPhase(p: Pipe): Phase {
    if p.fetchOp.None? then Idle
    else if !p.fetchOp.value.isFetchIssued then Refused
    else if !p.fetchOp.value.readyForNextStage then Pending
    else Idle
  }

  /** How many cycles the request of the op in the memory stage, and that of the
      op in fetch, have now been refused or left unanswered in a row. A refused
      fetch that is not offered again does not count. */
  datatype Timed = Timed(sys: Sys, dataWait: nat, fetchWait: nat)

  function AfterRound(m: Machine, t: Timed, x: Round): Timed {
    var s1 := Replied(m, t.sys, x.replies);
    var s2 := AfterClock(m, s1, x.acceptData, x.acceptInst);
    Timed(s2, DataWait(s1.pipe, s2.pipe, t.dataWait), FetchWait(s1.pipe, s2.pipe, t.fetchWait))
  }

  /** The wait of the data request over a cycle from `p` to `q`. */
  function DataWait(p: Pipe, q: Pipe, wait: nat): nat {
    if DataPhase(p) == DataPhase(q) && DataPhase(p) != Idle then wait + 1 else 0
  }

  function FetchWait(p: Pipe, q: Pipe, wait: nat): nat {
    if FetchPhase(p) == FetchPhase(q) && FetchPhase(p) != Idle then
      if FetchPhase(p) == Refused && p.decodeOp.Some? then wait else wait + 1
    else 0
  }

  function AfterRounds(m: Machine, t: Timed, xs: seq<Round>): Timed {
    if xs == [] then t else AfterRound(m, AfterRounds(m, t, xs[..|xs| - 1]), xs[|xs| - 1])
  }

  /** Neither request has waited for more than `limit` cycles. */
  predicate Prompt(limit: nat, t: Timed) {
    t.dataWait <= limit && t.fetchWait <= limit
  }

  predicate AlwaysPrompt(m: Machine, limit: nat, t: Timed, xs: seq<Round>) {
    forall k :: 0 <= k <= |xs| ==> Prompt(limit, AfterRounds(m, t, xs[..k]))
  }

  // ------------------------------------------------------------------ measure

  function MemRank(limit: nat, op: Op, wait: nat): int {
    if !op.isMem then 1
    else if !op.memTried then 4 + 2 * limit
    else if op.waitOnPktIssue then 3 + limit + (limit - wait)
    else if !op.readyForNextStage then 2 + (limit - wait)
    else 1
  }

  function FetchRank(limit: nat, op: Op, wait: nat): int {
    if !op.isFetchIssued then 3 + limit + (limit - wait)
    else if !op.readyForNextStage then 2 + (limit - wait)
    else 1
  }

  /** How far the oldest op in flight is from retirement; it only depends on
      that op, which no flush ever reaches. */
  function Distance(limit: nat, p: Pipe, dataWait: nat, fetchWait: nat): int {
    if p.wbOp.Some? then 1
    else if p.memOp.Some? then 1 + MemRank(limit, p.memOp.value, dataWait)
    else if p.executeOp.Some? then 6 + 2 * limit
    else if p.decodeOp.Some? then 7 + 2 * limit
    else if p.fetchOp.Some? then 7 + 2 * limit + FetchRank(limit, p.fetchOp.value, fetchWait)
    else 11 + 4 * limit
  }

  function Bound(limit: nat): nat {
    11 + 4 * limit
  }

  lemma DistanceBounds(limit: nat, t: Timed)
    requires Prompt(limit, t)
    ensures 1 <= Distance(limit, t.sys.pipe, t.dataWait, t.fetchWait) <= Bound(limit)
  {
  }

  /** `b` is `a` with nothing but its result and its readiness changed. */
  predicate OnlyReadier(a: Op, b: Op) {
    && b.isMem == a.isMem && b.memTried == a.memTried && b.waitOnPktIssue == a.waitOnPktIssue
    && b.isFetchIssued == a.isFetchIssued && (a.readyForNextStage ==> b.readyForNextStage)
  }

  lemma LoadReplyReadies(op: Op, pkt: Packet)
    requires |pkt.data| == pkt.size
    ensures OnlyReadier(op, LoadReply(op, pkt))
  {
    hide WordOf, Extract, IsLoad;
  }

  lemma ReplyReadies(p: Pipe, pkt: Packet)
    requires !pkt.isWrite ==> |pkt.data| == pkt.size
    ensures var q := RecvResp(p, pkt);
            && q.wbOp == p.wbOp && q.executeOp == p.executeOp && q.decodeOp == p.decodeOp
            && q.memOp.Some? == p.memOp.Some? && (p.memOp.Some? ==> OnlyReadier(p.memOp.value, q.memOp.value))
            && q.fetchOp.Some? == p.fetchOp.Some? && (p.fetchOp.Some? ==> OnlyReadier(p.fetchOp.value, q.fetchOp.value))
  {
    hide WordOf, LoadReply;
    if pkt.ptype.LoadPacket? && !pkt.isWrite && p.memOp.Some? {
      LoadReplyReadies(p.memOp.value, pkt);
    }
  }

  /** A reply never takes the oldest op further from retirement. */
  lemma ReplyHelps(limit: nat, p: Pipe, pkt: Packet, dataWait: nat, fetchWait: nat)
    requires dataWait <= limit && fetchWait <= limit && (!pkt.isWrite ==> |pkt.data| == pkt.size)
    ensures Distance(limit, RecvResp(p, pkt), dataWait, fetchWait) <= Distance(limit, p, dataWait, fetchWait)
  {
    hide RecvResp;
    ReplyReadies(p, pkt);
  }

  lemma EventHelps(m: Machine, limit: nat, s: Sys, x: Reply, dataWait: nat, fetchWait: nat)
    requires dataWait <= limit && fetchWait <= limit
    ensures Distance(limit, Next(m, s, EventOf(x)).pipe, dataWait, fetchWait)
              <= Distance(limit, s.pipe, dataWait, fetchWait)
    ensures Next(m, s, EventOf(x)).pipe.run == s.pipe.run && Next(m, s, EventOf(x)).pipe.retired == s.pipe.retired
  {
    hide Distance, Served, After, Fetched, LoadReply, WordOf;
    match x
    case DataReply(i) =>
      if i < |s.dataReqs| {
        ServedSize(s.mem, s.dataReqs[i]);
        ReplyHelps(limit, s.pipe, Served(s.mem, s.dataReqs[i]), dataWait, fetchWait);
      }
    case FetchReply(j) =>
      if j < |s.fetches| {
        FetchedSize(m.text, s.fetches[j]);
        ReplyHelps(limit, s.pipe, Fetched(m.text, s.fetches[j]), dataWait, fetchWait);
      }
  }

  lemma {:induction false} RepliesHelp(r: Ref, limit: nat, s: Sys, replies: seq<Reply>, dataWait: nat, fetchWait: nat)
    requires Inv(r, s) && dataWait <= limit && fetchWait <= limit
    ensures var q := Replied(r.m, s, replies);
            && Inv(r, q) && q.pipe.run == s.pipe.run && q.pipe.retired == s.pipe.retired
               && ExecIndex(q.pipe) == ExecIndex(s.pipe)
            && Distance(limit, q.pipe, dataWait, fetchWait) <= Distance(limit, s.pipe, dataWait, fetchWait)
  {
    hide Inv, Distance, Next, ExecIndex;
    if replies != [] {
      var n := |replies| - 1;
      var q := Replied(r.m, s, replies[..n]);
      RepliesHelp(r, limit, s, replies[..n], dataWait, fetchWait);
      EventHelps(r.m, limit, q, replies[n], dataWait, fetchWait);
      ReplyKeeps(r, q, replies[n]);
    }
  }

  lemma ReplyKeeps(r: Ref, s: Sys, x: Reply)
    requires Inv(r, s)
    ensures var q := Next(r.m, s, EventOf(x));
            Inv(r, q) && ExecIndex(q.pipe) == ExecIndex(s.pipe)
  {
    hide Inv, AfterData, AfterFetch, ExecIndex;
    match x
    case DataReply(i) =>
      if i < |s.dataReqs| {
        DataReplyKeeps(r, s, i);
      } else {
        assert AfterData(s, i) == s by { NoSuchRequest(s, i); }
      }
    case FetchReply(j) => FetchEventKeeps(r, s, j);
  }

  lemma NoSuchRequest(s: Sys, i: nat)
    requires i >= |s.dataReqs|
    ensures AfterData(s, i) == s
  {
  }

  // -------------------------------------------------------------------- cycle

  /** The slots after a cycle that does not retire. */
  function Cycled(m: Machine, p: Pipe, acceptData: bool, acceptInst: bool): Pipe {
    Cycle(m, p, acceptData, acceptInst).pipe
  }

  lemma CycleOfWb(m: Machine, p: Pipe, acceptData: bool, acceptInst: bool)
    requires p.wbOp.Some?
    ensures Cycled(m, p, acceptData, acceptInst).retired == p.retired + 1
  {
    CycleRetires(m, p, acceptData, acceptInst);
    hide Cycle;
  }

  lemma CycleOfMem(m: Machine, p: Pipe, acceptData: bool, acceptInst: bool)
    requires p.run && p.wbOp.None? && p.memOp.Some?
    ensures var q := Cycled(m, p, acceptData, acceptInst);
            var s := MemStage(p, acceptData).0;
            if s.memOp.Some? then q.wbOp.None? && q.memOp == s.memOp else q.wbOp.Some?
  {
    hide MemStage, ExecuteStage, DecodeStage, FetchStage;
    MemFrame(p, acceptData);
    var s2 := MemStage(p, acceptData).0;
    var s3 := ExecuteStage(m, s2);
    ExecuteMonotone(m, s2);
    if s2.memOp.Some? { ExecuteWaits(m, s2); }
    DecodeSameBack(s3);
    FetchSameBack(DecodeStage(s3), acceptInst);
    RecoveredSameBack(FetchStage(DecodeStage(s3), acceptInst).0);
  }

  lemma ExecuteWaits(m: Machine, p: Pipe)
    requires p.memOp.Some? || p.executeOp.None?
    ensures var q := ExecuteStage(m, p);
            q == p.(executeOp := q.executeOp) && (p.executeOp.None? ==> q == p)
  {
  }

  lemma MemRankFalls(limit: nat, p: Pipe, dataWait: nat, acceptData: bool)
    requires p.wbOp.None? && p.memOp.Some? && dataWait <= limit
    ensures var s := MemStage(p, acceptData).0;
            var wait := if DataPhase(p) == DataPhase(s) && DataPhase(p) != Idle then dataWait + 1 else 0;
            s.memOp.Some? && wait <= limit ==>
              MemRank(limit, s.memOp.value, wait) < MemRank(limit, p.memOp.value, dataWait)
  {
    hide DataPacket, StoreValue;
    BypassFlags(p, p.memOp.value);
    hide Bypassed;
  }

  lemma BypassFlags(p: Pipe, op: Op)
    ensures var b := Bypassed(p, op);
            b.isMem == op.isMem && b.memTried == op.memTried && b.waitOnPktIssue == op.waitOnPktIssue
            && b.readyForNextStage == op.readyForNextStage
  {
    hide StoreValue, IsStore;
    if IsStore(op) && op.src2 >= 0 {
      var v := StoreValue(p, op);
      assert Bypassed(p, op) == op.(memValue := v, src2Value := v);
    }
  }

  lemma CycleOfExecute(r: Ref, p: Pipe, mem: Mem, reqs: seq<Packet>, acceptData: bool, acceptInst: bool)
    requires p.run && PipeOk(r, p, mem, reqs) && p.wbOp.None? && p.memOp.None? && p.executeOp.Some?
    ensures var q := Cycled(r.m, p, acceptData, acceptInst);
            q.wbOp.None? && q.memOp.Some?
  {
    hide ExecuteStage, DecodeStage, FetchStage, WbOk, FrontOk, MemOk, PathOk, Run, ExecuteReady, WithSources,
         ResolveBranch, ExecOp;
    assert MemStage(p, acceptData) == (p, None);
    var op := WithSources(p.executeOp.value, r.At(MemIndex(p)).regs);
    ExecuteReads(r, p);
    ReadyIsResolve(r.m, p, op);
    var s3 := ExecuteStage(r.m, p);
    ExecuteMonotone(r.m, p);
    DecodeSameBack(s3);
    FetchSameBack(DecodeStage(s3), acceptInst);
    RecoveredSameBack(FetchStage(DecodeStage(s3), acceptInst).0);
  }

  lemma DecodeMoves(p: Pipe)
    requires p.executeOp.None? && p.decodeOp.Some? && !p.recover
    ensures var q := DecodeStage(p);
            q.executeOp.Some? && q.decodeOp.None? && (q.recover ==> q.flush == FlushDecode)
  {
    hide DecodeFields, PopRas, PushRas, Update, Funct, Opcode;
    DecodeIsBranch(p);
    var op := DecodeFields(p.decodeOp.value);
    BranchRecovers(BeforeBranch(p, op), op);
    hide DecodeStage, DecodeBranch;
  }

  lemma BranchRecovers(p: Pipe, op: Op)
    requires !p.recover
    ensures var q := DecodeBranch(p, op).0;
            (q.recover ==> q.flush == FlushDecode) && q.decodeOp == p.decodeOp
  {
    hide PopRas, Update, Funct;
  }

  lemma FetchKeepsExecute(p: Pipe, accept: bool)
    ensures var q := FetchStage(p, accept).0;
            q.executeOp == p.executeOp && q.recover == p.recover && q.flush == p.flush
  {
    hide PredictedPc;
  }

  /** With memory and execute empty the op in decode moves on, and the only
      flush there can be is its own, which does not reach it. */
  lemma CycleOfDecode(m: Machine, p: Pipe, acceptData: bool, acceptInst: bool)
    requires p.run && !p.recover && p.wbOp.None? && p.memOp.None? && p.executeOp.None? && p.decodeOp.Some?
    ensures var q := Cycled(m, p, acceptData, acceptInst);
            q.wbOp.None? && q.memOp.None? && q.executeOp.Some?
  {
    hide ExecuteStage, DecodeStage, FetchStage;
    assert MemStage(p, acceptData) == (p, None);
    ExecuteWaits(m, p);
    DecodeMoves(p);
    DecodeSameBack(p);
    FetchSameBack(DecodeStage(p), acceptInst);
    FetchKeepsExecute(DecodeStage(p), acceptInst);
  }

  /** With nothing older, fetch is neither stalled nor flushed. */
  lemma CycleOfFetch(m: Machine, p: Pipe, acceptData: bool, acceptInst: bool)
    requires p.run && !p.recover && p.wbOp.None? && p.memOp.None? && p.executeOp.None? && p.decodeOp.None?
    ensures Cycled(m, p, acceptData, acceptInst) == FetchStage(p, acceptInst).0
  {
    hide ExecuteStage, FetchStage;
    assert MemStage(p, acceptData) == (p, None);
    ExecuteWaits(m, p);
    FetchKeepsExecute(p, acceptInst);
  }

  lemma FetchDistanceFalls(limit: nat, p: Pipe, dataWait: nat, fetchWait: nat, accept: bool)
    requires p.wbOp.None? && p.memOp.None? && p.executeOp.None? && p.decodeOp.None? && fetchWait <= limit
    ensures var q := FetchStage(p, accept).0;
            var wait := if FetchPhase(p) == FetchPhase(q) && FetchPhase(p) != Idle then fetchWait + 1 else 0;
            wait <= limit ==> Distance(limit, q, dataWait, wait) < Distance(limit, p, dataWait, fetchWait)
  {
    hide PredictedPc;
  }

  /** A cycle retires the op in write back, or brings the oldest op nearer. */
  lemma CycleAdvances(r: Ref, limit: nat, t: Timed, acceptData: bool, acceptInst: bool)
    requires Inv(r, t.sys) && t.sys.pipe.run && Prompt(limit, t)
    requires Prompt(limit, AfterRound(r.m, t, Round([], acceptData, acceptInst)))
    ensures var q := AfterRound(r.m, t, Round([], acceptData, acceptInst));
            q.sys.pipe.retired > t.sys.pipe.retired ||
            Distance(limit, q.sys.pipe, q.dataWait, q.fetchWait) < Distance(limit, t.sys.pipe, t.dataWait, t.fetchWait)
  {
    hide Cycle, PipeOk, RefLog, AccessLog, FetchStage, MemStage;
    var p := t.sys.pipe;
    var x := Round([], acceptData, acceptInst);
    assert Replied(r.m, t.sys, []) == t.sys;
    NoRecovery(r, p, t.sys.mem, t.sys.dataReqs);
    var q := Cycled(r.m, p, acceptData, acceptInst);
    assert AfterRound(r.m, t, x).sys.pipe == q;
    if p.wbOp.Some? {
      CycleOfWb(r.m, p, acceptData, acceptInst);
    } else if p.memOp.Some? {
      CycleOfMem(r.m, p, acceptData, acceptInst);
      MemRankFalls(limit, p, t.dataWait, acceptData);
    } else if p.executeOp.Some? {
      CycleOfExecute(r, p, t.sys.mem, t.sys.dataReqs, acceptData, acceptInst);
    } else if p.decodeOp.Some? {
      CycleOfDecode(r.m, p, acceptData, acceptInst);
    } else {
      CycleOfFetch(r.m, p, acceptData, acceptInst);
      FetchDistanceFalls(limit, p, AfterRound(r.m, t, x).dataWait, t.fetchWait, acceptInst);
    }
  }

  lemma RoundIsCycle(m: Machine, t: Timed, x: Round)
    ensures AfterRound(m, t, x)
         == AfterRound(m, t.(sys := Replied(m, t.sys, x.replies)), Round([], x.acceptData, x.acceptInst))
  {
    assert Replied(m, Replied(m, t.sys, x.replies), []) == Replied(m, t.sys, x.replies);
    hide AfterClock, DataPhase, FetchPhase;
  }

  lemma RoundAdvances(r: Ref, limit: nat, t: Timed, x: Round)
    requires Inv(r, t.sys) && t.sys.pipe.run && Prompt(limit, t) && Prompt(limit, AfterRound(r.m, t, x))
    requires Good(r, ExecIndex(AfterRound(r.m, t, x).sys.pipe))
    ensures var q := AfterRound(r.m, t, x);
            && Inv(r, q.sys) && ExecIndex(t.sys.pipe) <= ExecIndex(q.sys.pipe)
               && t.sys.pipe.retired <= q.sys.pipe.retired
            && (q.sys.pipe.retired > t.sys.pipe.retired ||
                Distance(limit, q.sys.pipe, q.dataWait, q.fetchWait)
                  < Distance(limit, t.sys.pipe, t.dataWait, t.fetchWait))
  {
    hide Inv, Distance, Good, ExecIndex, Replied, AfterRound;
    RoundIsCycle(r.m, t, x);
    RepliesHelp(r, limit, t.sys, x.replies, t.dataWait, t.fetchWait);
    var t1 := t.(sys := Replied(r.m, t.sys, x.replies));
    CycleAdvances(r, limit, t1, x.acceptData, x.acceptInst);
    RoundSys(r.m, t, x);
    ClockKeeps(r, t1.sys, x.acceptData, x.acceptInst);
  }

  lemma RoundSys(m: Machine, t: Timed, x: Round)
    ensures AfterRound(m, t, x).sys == AfterClock(m, Replied(m, t.sys, x.replies), x.acceptData, x.acceptInst)
  {
    hide AfterClock, DataPhase, FetchPhase;
  }

  lemma {:induction false} StillRunning(r: Ref, limit: nat, t: Timed, xs: seq<Round>)
    requires Inv(r, t.sys) && t.sys.pipe.run && AlwaysPrompt(r.m, limit, t, xs)
    requires Good(r, ExecIndex(AfterRounds(r.m, t, xs).sys.pipe))
    ensures var q := AfterRounds(r.m, t, xs);
            && Inv(r, q.sys) && t.sys.pipe.retired <= q.sys.pipe.retired
               && (!q.sys.pipe.run ==> q.sys.pipe.retired > t.sys.pipe.retired)
            && (q.sys.pipe.retired > t.sys.pipe.retired ||
                Distance(limit, q.sys.pipe, q.dataWait, q.fetchWait) + |xs|
                  <= Distance(limit, t.sys.pipe, t.dataWait, t.fetchWait))
    decreases |xs|
  {
    hide Inv, Distance, Good, ExecIndex, AfterRound, Prompt;
    if xs != [] {
      var n := |xs| - 1;
      var q := AfterRounds(r.m, t, xs[..n]);
      PrefixPrompt(r.m, limit, t, xs);
      RoundMonotone(r.m, q, xs[n]);
      GoodBelow(r, ExecIndex(q.sys.pipe), ExecIndex(AfterRound(r.m, q, xs[n]).sys.pipe));
      StillRunning(r, limit, t, xs[..n]);
      if q.sys.pipe.run {
        RoundAdvances(r, limit, q, xs[n]);
        RoundStops(r, q, xs[n]);
      } else {
        StoppedStays(r, q, xs[n]);
      }
    }
  }

  lemma GoodBelow(r: Ref, i: nat, j: nat)
    requires Good(r, j) && i <= j
    ensures Good(r, i)
  {
    hide GoodAt;
  }

  lemma PrefixPrompt(m: Machine, limit: nat, t: Timed, xs: seq<Round>)
    requires AlwaysPrompt(m, limit, t, xs) && xs != []
    ensures AlwaysPrompt(m, limit, t, xs[..|xs| - 1])
    ensures Prompt(limit, AfterRounds(m, t, xs[..|xs| - 1])) && Prompt(limit, AfterRounds(m, t, xs))
  {
    hide AfterRounds, Prompt;
    var n := |xs| - 1;
    forall k | 0 <= k <= n ensures Prompt(limit, AfterRounds(m, t, xs[..n][..k])) { assert xs[..n][..k] == xs[..k]; }
    assert xs[..n + 1] == xs;
  }

  lemma {:induction false} RepliesMonotone(m: Machine, s: Sys, replies: seq<Reply>)
    ensures ExecIndex(s.pipe) <= ExecIndex(Replied(m, s, replies).pipe)
  {
    hide Next, ExecIndex;
    if replies != [] {
      var n := |replies| - 1;
      RepliesMonotone(m, s, replies[..n]);
      EventMonotone(m, Replied(m, s, replies[..n]), EventOf(replies[n]));
    }
  }

  lemma RoundMonotone(m: Machine, t: Timed, x: Round)
    ensures ExecIndex(t.sys.pipe) <= ExecIndex(AfterRound(m, t, x).sys.pipe)
  {
    RoundSys(m, t, x);
    RepliesMonotone(m, t.sys, x.replies);
    EventMonotone(m, Replied(m, t.sys, x.replies), Clock(x.acceptData, x.acceptInst));
    hide AfterRound, ExecIndex, Replied, AfterClock;
  }

  /** Only a retirement stops the run. */
  lemma RoundStops(r: Ref, t: Timed, x: Round)
    requires Inv(r, t.sys) && t.sys.pipe.run
    ensures var q := AfterRound(r.m, t, x).sys.pipe;
            !q.run ==> q.retired > t.sys.pipe.retired
  {
    hide Inv, AfterRound, Replied, Cycle;
    RoundSys(r.m, t, x);
    RepliesHelp(r, 0, t.sys, x.replies, 0, 0);
    CycleRetires(r.m, Replied(r.m, t.sys, x.replies).pipe, x.acceptData, x.acceptInst);
  }

  lemma StoppedStays(r: Ref, t: Timed, x: Round)
    requires Inv(r, t.sys) && !t.sys.pipe.run
    ensures var q := AfterRound(r.m, t, x).sys;
            Inv(r, q) && !q.pipe.run && q.pipe.retired == t.sys.pipe.retired
  {
    hide Inv, AfterRound, Replied;
    RoundSys(r.m, t, x);
    RepliesHelp(r, 0, t.sys, x.replies, 0, 0);
  }

  /** Bounded progress. If in every round of a run no request is refused more
      than `limit` times in a row nor left unanswered for more than `limit`
      cycles, then within 11 + 4 * limit rounds some instruction retires, from
      every running state of the pipeline and for every order of the replies. */
  lemma SomethingRetires(r: Ref, limit: nat, t: Timed, xs: seq<Round>)
    requires Inv(r, t.sys) && t.sys.pipe.run && AlwaysPrompt(r.m, limit, t, xs) && |xs| == Bound(limit)
    requires Good(r, ExecIndex(AfterRounds(r.m, t, xs).sys.pipe))
    ensures AfterRounds(r.m, t, xs).sys.pipe.retired > t.sys.pipe.retired
  {
    hide Inv, Distance, Good, ExecIndex, AfterRounds;
    StillRunning(r, limit, t, xs);
    assert Prompt(limit, t) by { PromptAt(r.m, limit, t, xs, 0); }
    PromptAt(r.m, limit, t, xs, |xs|);
    DistanceBounds(limit, t);
    DistanceBounds(limit, AfterRounds(r.m, t, xs));
  }

  lemma PromptAt(m: Machine, limit: nat, t: Timed, xs: seq<Round>, k: nat)
    requires AlwaysPrompt(m, limit, t, xs) && (k == 0 || k == |xs|)
    ensures Prompt(limit, if k == 0 then t else AfterRounds(m, t, xs))
  {
    assert xs[..0] == [] && xs[..|xs|] == xs;
    assert AfterRounds(m, t, []) == t;
    hide AfterRound;
  }
}
