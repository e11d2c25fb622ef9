/** The dynamic branch predictor as a value: a branch target buffer searched
    from its first entry, and a circular return address stack whose index and
    count are 8-bit. */
module PredictorSpec {
  import opened Words

  datatype BtbEntry = BtbEntry(pc: Word, target: Word, valid: bool)

  datatype PredictorState = PredictorState(btb: seq<BtbEntry>, ras: seq<Word>, rasNext: nat, rasCount: nat)

  /** A predictor whose return stack has at least one slot. */
  type Predictor = p: PredictorState |
      0 < |p.ras| && p.rasNext < |p.ras| && p.rasCount < 256
      witness PredictorState([], [0], 0, 0)

  /** What `getTarget` answers when no entry matches. */
  const MISS: Word := 0xFFFF_FFFF

  predicate Matches(e: BtbEntry, pc: Word) {
    e.valid && e.pc == pc
  }

  /** Index of the first valid entry for `pc`, or `|btb|`. */
  function FindPc(btb: seq<BtbEntry>, pc: Word): (i: nat)
    ensures i <= |btb|
    ensures i < |btb| ==> Matches(btb[i], pc)
    ensures forall j :: 0 <= j < i ==> !Matches(btb[j], pc)
  {
    if btb == [] then 0
    else if Matches(btb[0], pc) then 0
    else
      var i := FindPc(btb[1..], pc);
      assert forall j :: 0 < j < 1 + i ==> btb[j] == btb[1..][j - 1];
      1 + i
  }

  /** Index of the first entry that is not valid, or `|btb|`. */
  function FindFree(btb: seq<BtbEntry>): (i: nat)
    ensures i <= |btb|
    ensures i < |btb| ==> !btb[i].valid
    ensures forall j :: 0 <= j < i ==> btb[j].valid
  {
    if btb == [] then 0
    else if !btb[0].valid then 0
    else
      var i := FindFree(btb[1..]);
      assert forall j :: 0 < j < 1 + i ==> btb[j] == btb[1..][j - 1];
      1 + i
  }

  function GetTarget(p: Predictor, pc: Word): Word {
    var i := FindPc(p.btb, pc);
    if i < |p.btb| then p.btb[i].target else MISS
  }

  function UpdateBtb(btb: seq<BtbEntry>, pc: Word, taken: bool, target: Word): (r: seq<BtbEntry>)
    ensures |r| == |btb|
  {
    var found := FindPc(btb, pc);
    if taken then
      var slot := if found < |btb| then found else FindFree(btb);
      if slot < |btb| then btb[slot := BtbEntry(pc, target, true)] else btb
    else if found < |btb| then btb[found := btb[found].(valid := false)]
    else btb
  }

  function Update(p: Predictor, pc: Word, taken: bool, target: Word): Predictor {
    p.(btb := UpdateBtb(p.btb, pc, taken, target))
  }

  function PushRas(p: Predictor, returnPc: Word): Predictor {
    p.(rasCount := (p.rasCount + 1) % 256,
    ras := p.ras[p.rasNext := returnPc],
    rasNext := (p.rasNext + 1) % 256 % |p.ras|)
  }

  /** The popped address, 0 when the count is 0, and the predictor after it. */
  function PopRas(p: Predictor): (Word, Predictor) {
    if p.rasCount == 0 then (0, p)
    else
      var next := (p.rasNext + |p.ras| - 1) % |p.ras| % 256;
      (p.ras[next], p.(rasCount := p.rasCount - 1, rasNext := next))
  }

  /** The unimplemented direction predictor. */
  predicate PredictTaken(p: Predictor, pc: Word) {
    false
  }
}
