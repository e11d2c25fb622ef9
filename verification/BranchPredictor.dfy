/** The dynamic branch predictor as the object that the pipeline calls: arrays
    for the branch target buffer and the return stack, updated in place. */
module BranchPredictor {
  import opened Words
  import opened PredictorSpec

  class DynamicBranchPredictor {
    const btb: array<BtbEntry>
    const ras: array<Word>
    var rasNext: nat
    var rasCount: nat

    ghost predicate Valid()
      reads this
    {
      0 < ras.Length && rasNext < ras.Length && rasCount < 256
    }

    ghost function Repr(): set<object>
    {
      {this, btb, ras}
    }

    ghost function Value(): Predictor
      reads this, btb, ras
      requires Valid()
    {
      PredictorState(btb[..], ras[..], rasNext, rasCount)
    }

    constructor (btbSize: nat, rasSize: nat)
      requires rasSize > 0
      ensures Valid() && fresh(btb) && fresh(ras)
      ensures Value() == PredictorState(seq(btbSize, _ => BtbEntry(0, 0, false)), seq(rasSize, _ => 0), 0, 0)
    {
      btb := new BtbEntry[btbSize](_ => BtbEntry(0, 0, false));
      ras := new Word[rasSize](_ => 0);
      rasNext, rasCount := 0, 0;
      new;
      assert btb[..] == seq(btbSize, _ => BtbEntry(0, 0, false));
      assert ras[..] == seq(rasSize, _ => 0);
    }

    /** Index of the first valid entry for `pc`, or the size of the buffer. */
    method FindEntry(pc: Word) returns (found: nat)
      ensures found == FindPc(btb[..], pc)
    {
      found := 0;
      while found < btb.Length && !(btb[found].pc == pc && btb[found].valid)
        invariant found <= btb.Length
        invariant forall j :: 0 <= j < found ==> !Matches(btb[j], pc)
      {
        found := found + 1;
      }
      FirstMatch(btb[..], pc, found);
    }

    /** Index of the first entry that is not valid, or the size of the buffer. */
    method FindEmpty() returns (found: nat)
      ensures found == FindFree(btb[..])
    {
      found := 0;
      while found < btb.Length && btb[found].valid
        invariant found <= btb.Length
        invariant forall j :: 0 <= j < found ==> btb[j].valid
      {
        found := found + 1;
      }
      FirstEmpty(btb[..], found);
    }

    method GetTarget(pc: Word) returns (target: Word)
      requires Valid()
      ensures target == PredictorSpec.GetTarget(Value(), pc)
    {
      var found := FindEntry(pc);
      if found != btb.Length {
        return btb[found].target;
      }
      return MISS;
    }

    method PredictTaken(pc: Word) returns (taken: bool)
      requires Valid()
      ensures taken == PredictorSpec.PredictTaken(Value(), pc)
    {
      return false;
    }

    method Update(pc: Word, taken: bool, target: Word)
      requires Valid()
      modifies btb
      ensures Valid() && Value() == PredictorSpec.Update(old(Value()), pc, taken, target)
    {
      var found := FindEntry(pc);
      if taken {
        if found == btb.Length {
          found := FindEmpty();
        }
        if found != btb.Length {
          btb[found] := btb[found].(pc := pc);
          btb[found] := btb[found].(target := target);
          btb[found] := btb[found].(valid := true);
        }
      } else if found != btb.Length {
        btb[found] := btb[found].(valid := false);
      }
    }

    method PopRAS() returns (returnPc: Word)
      requires Valid()
      modifies this
      ensures Valid() && (returnPc, Value()) == PopRas(old(Value()))
    {
      if rasCount != 0 {
        rasCount := rasCount - 1;
        rasNext := (rasNext + ras.Length - 1) % ras.Length % 256;
        return ras[rasNext];
      }
      return 0;
    }

    method PushRAS(returnPc: Word)
      requires Valid()
      modifies this, ras
      ensures Valid() && Value() == PushRas(old(Value()), returnPc)
    {
      rasCount := (rasCount + 1) % 256;
      ras[rasNext] := returnPc;
      rasNext := (rasNext + 1) % 256;
      rasNext := rasNext % ras.Length;
    }
  }

  lemma FirstMatch(btb: seq<BtbEntry>, pc: Word, i: nat)
    requires i <= |btb| && (i < |btb| ==> Matches(btb[i], pc)) && forall j :: 0 <= j < i ==> !Matches(btb[j], pc)
    ensures i == FindPc(btb, pc)
  {
  }

  lemma FirstEmpty(btb: seq<BtbEntry>, i: nat)
    requires i <= |btb| && (i < |btb| ==> !btb[i].valid) && forall j :: 0 <= j < i ==> btb[j].valid
    ensures i == FindFree(btb)
  {
  }
}
