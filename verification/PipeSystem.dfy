/** The pipeline between an instruction memory and a data memory that may
    refuse any request and answer an accepted one at any later time. */
module PipeSystem {
  import opened Words
  import opened Isa
  import opened Packets
  import opened PredictorSpec
  import opened PipeSpec

  /** One retired instruction: where it was, and the registers after it. */
  datatype Retirement = Retirement(pc: Word, regs: Regs)

  /** `dataReqs` and `fetches` are accepted and not answered; `issued` lists
      every data request ever accepted, and `log` every retirement. */
  datatype Sys = Sys(pipe: Pipe, mem: Mem, dataReqs: seq<Packet>, fetches: seq<Packet>,
                     issued: seq<Packet>, log: seq<Retirement>)

  datatype Event =
    | Clock(acceptData: bool, acceptInst: bool)
    | AnswerData(i: nat)
    | AnswerFetch(j: nat)

  function Without(q: seq<Packet>, i: nat): seq<Packet>
    requires i < |q|
  {
    q[..i] + q[i + 1..]
  }

  function Added(q: seq<Packet>, offered: Option<Packet>, accept: bool): seq<Packet> {
    if offered.Some? && accept then q + [offered.value] else q
  }

  /** A fetch packet filled in with the word of the program at its address. */
  function Fetched(text: Text, p: Packet): Packet {
    var w := text(p.addr);
    Packet(false, FetchPacket, p.addr, 4, [ByteOf(w, 0), ByteOf(w, 1), ByteOf(w, 2), ByteOf(w, 3)])
  }

  function AfterClock(m: Machine, s: Sys, acceptData: bool, acceptInst: bool): Sys {
    if !s.pipe.run then s
    else
      var r := Cycle(m, s.pipe, acceptData, acceptInst);
      s.(pipe := r.pipe,
      dataReqs := Added(s.dataReqs, r.data, acceptData),
      fetches := Added(s.fetches, r.inst, acceptInst),
      issued := Added(s.issued, r.data, acceptData),
      log := if s.pipe.wbOp.Some? then s.log + [Retirement(s.pipe.wbOp.value.pc, r.pipe.regs)] else s.log)
  }

  function AfterData(s: Sys, i: nat): Sys {
    if i >= |s.dataReqs| then s
    else
      var p := s.dataReqs[i];
      if !p.isWrite && |Served(s.mem, p).data| != p.size then s
      else
        s.(pipe := RecvResp(s.pipe, Served(s.mem, p)), mem := After(s.mem, p), dataReqs := Without(s.dataReqs, i))
  }

  function AfterFetch(m: Machine, s: Sys, j: nat): Sys {
    if j >= |s.fetches| then s
    else s.(pipe := RecvResp(s.pipe, Fetched(m.text, s.fetches[j])), fetches := Without(s.fetches, j))
  }

  function Next(m: Machine, s: Sys, e: Event): Sys {
    match e
    case Clock(acceptData, acceptInst) => AfterClock(m, s, acceptData, acceptInst)
    case AnswerData(i) => AfterData(s, i)
    case AnswerFetch(j) => AfterFetch(m, s, j)
  }

  function RunSys(m: Machine, s: Sys, es: seq<Event>): Sys
    decreases |es|
  {
    if es == [] then s else Next(m, RunSys(m, s, es[..|es| - 1]), es[|es| - 1])
  }

  function StartSys(bp: Predictor, mem: Mem): Sys {
    Sys(Start(bp), mem, [], [], [], [])
  }

  lemma RunOneMore(m: Machine, s: Sys, es: seq<Event>, e: Event)
    ensures RunSys(m, s, es + [e]) == Next(m, RunSys(m, s, es), e)
  {
    hide Next;
    assert (es + [e])[..|es|] == es;
  }
}
