/** What the branch target buffer and the return address stack are for: a
    partial map of bounded capacity, and a bounded stack. */
module PredictorProofs {
  import opened Words
  import opened PredictorSpec
  import Geometry

  // ------------------------------------------------------ branch target buffer

  /** No two valid entries share a pc. */
  predicate UniquePcs(btb: seq<BtbEntry>) {
    forall i, j :: 0 <= i < j < |btb| && btb[i].valid && btb[j].valid ==> btb[i].pc != btb[j].pc
  }

  /** The buffer as a map from branch to target. */
  function Table(btb: seq<BtbEntry>): map<Word, Word> {
    if btb == [] then map[]
    else
      var e := btb[|btb| - 1];
      var t := Table(btb[..|btb| - 1]);
      if e.valid then t[e.pc := e.target] else t
  }

  predicate Has(btb: seq<BtbEntry>, pc: Word, target: Word) {
    exists i :: 0 <= i < |btb| && Matches(btb[i], pc) && btb[i].target == target
  }

  lemma {:induction false} TableHas(btb: seq<BtbEntry>, pc: Word, target: Word)
    requires UniquePcs(btb)
    ensures pc in Table(btb) && Table(btb)[pc] == target <==> Has(btb, pc, target)
  {
    if btb != [] {
      var n := |btb| - 1;
      TableHas(btb[..n], pc, target);
      if Has(btb[..n], pc, target) {
        var i :| 0 <= i < n && Matches(btb[..n][i], pc) && btb[..n][i].target == target;
        assert Matches(btb[i], pc);
      }
      if Has(btb, pc, target) {
        var i :| 0 <= i < |btb| && Matches(btb[i], pc) && btb[i].target == target;
        if i < n { assert Matches(btb[..n][i], pc); }
      }
    }
  }

  /** The map is full exactly when every entry is valid. */
  lemma {:induction false} TableSize(btb: seq<BtbEntry>)
    requires UniquePcs(btb)
    ensures |Table(btb)| <= |btb|
    ensures |Table(btb)| == |btb| <==> FindFree(btb) == |btb|
  {
    if btb != [] {
      var n := |btb| - 1;
      var t := Table(btb[..n]);
      TableSize(btb[..n]);
      assert FindFree(btb[..n]) == n <==> (forall i :: 0 <= i < n ==> btb[..n][i].valid);
      if btb[n].valid {
        var pc := btb[n].pc;
        if pc in t {
          TableHas(btb[..n], pc, t[pc]);
          assert false;
        }
        assert Table(btb).Keys == t.Keys + {pc};
      }
      hide FindFree, Table;
      assert FindFree(btb) == |btb| <==> (forall i :: 0 <= i < |btb| ==> btb[i].valid);
    }
  }

  /** Looking up a branch reads the map. */
  lemma TargetIsLookup(p: Predictor, pc: Word)
    requires UniquePcs(p.btb)
    ensures GetTarget(p, pc) == if pc in Table(p.btb) then Table(p.btb)[pc] else MISS
  {
    var i := FindPc(p.btb, pc);
    if i < |p.btb| {
      assert Has(p.btb, pc, p.btb[i].target);
      TableHas(p.btb, pc, p.btb[i].target);
    } else if pc in Table(p.btb) {
      TableHas(p.btb, pc, Table(p.btb)[pc]);
      assert false;
    }
  }

  /** The bounded map: a taken branch is entered or renewed, unless it is new
      and the map is full; a branch not taken is removed. */
  function TableUpdate(t: map<Word, Word>, capacity: nat, pc: Word, taken: bool, target: Word): map<Word, Word> {
    if !taken then t - {pc}
    else if pc in t || |t| < capacity then t[pc := target]
    else t
  }

  lemma UpdateKeepsUnique(btb: seq<BtbEntry>, pc: Word, taken: bool, target: Word)
    requires UniquePcs(btb)
    ensures UniquePcs(UpdateBtb(btb, pc, taken, target))
  {
  }

  /** What an update does to the entries of each pc. */
  lemma UpdateHas(btb: seq<BtbEntry>, pc: Word, taken: bool, target: Word, x: Word, y: Word)
    requires UniquePcs(btb)
    ensures var found := FindPc(btb, pc) < |btb|;
            Has(UpdateBtb(btb, pc, taken, target), x, y) <==>
              if x != pc then Has(btb, x, y)
              else taken && (found || FindFree(btb) < |btb|) && y == target
  {
    var r := UpdateBtb(btb, pc, taken, target);
    var found := FindPc(btb, pc);
    var slot := if found < |btb| then found else FindFree(btb);
    assert forall i :: 0 <= i < |btb| && i != slot ==> r[i] == btb[i];
    if Has(r, x, y) {
      var i :| 0 <= i < |r| && Matches(r[i], x) && r[i].target == y;
      if i != slot { assert Matches(btb[i], x); }
    }
    if x != pc && Has(btb, x, y) {
      var i :| 0 <= i < |btb| && Matches(btb[i], x) && btb[i].target == y;
      assert Matches(r[i], x);
    }
    if x == pc && taken && slot < |btb| { assert Matches(r[slot], x); }
  }

  lemma FoundIsIn(btb: seq<BtbEntry>, pc: Word)
    requires UniquePcs(btb)
    ensures FindPc(btb, pc) < |btb| <==> pc in Table(btb)
  {
    var i := FindPc(btb, pc);
    if i < |btb| {
      assert Has(btb, pc, btb[i].target);
      TableHas(btb, pc, btb[i].target);
    } else if pc in Table(btb) {
      TableHas(btb, pc, Table(btb)[pc]);
      assert false;
    }
  }

  /** Updating the buffer updates the bounded map. */
  lemma UpdateIsTable(btb: seq<BtbEntry>, pc: Word, taken: bool, target: Word)
    requires UniquePcs(btb)
    ensures UniquePcs(UpdateBtb(btb, pc, taken, target))
    ensures Table(UpdateBtb(btb, pc, taken, target)) == TableUpdate(Table(btb), |btb|, pc, taken, target)
  {
    UpdateKeepsUnique(btb, pc, taken, target);
    TableSize(btb);
    FoundIsIn(btb, pc);
    hide *;
    var t, u := Table(UpdateBtb(btb, pc, taken, target)), TableUpdate(Table(btb), |btb|, pc, taken, target);
    forall x: Word | x in t ensures x in u && u[x] == t[x] { SameLookup(btb, pc, taken, target, x, t[x]); }
    forall x: Word | x in u ensures x in t { SameLookup(btb, pc, taken, target, x, u[x]); }
    SameMap(t, u);
  }

  lemma SameMap(t: map<Word, Word>, u: map<Word, Word>)
    requires forall x :: x in t ==> x in u && u[x] == t[x]
    requires forall x :: x in u ==> x in t
    ensures t == u
  {
    assert t.Keys == u.Keys;
  }

  lemma SameLookup(btb: seq<BtbEntry>, pc: Word, taken: bool, target: Word, x: Word, y: Word)
    requires UniquePcs(btb) && UniquePcs(UpdateBtb(btb, pc, taken, target))
    requires |Table(btb)| < |btb| <==> FindFree(btb) < |btb|
    requires FindPc(btb, pc) < |btb| <==> pc in Table(btb)
    ensures var t := Table(UpdateBtb(btb, pc, taken, target));
            var u := TableUpdate(Table(btb), |btb|, pc, taken, target);
            (x in t && t[x] == y) <==> (x in u && u[x] == y)
  {
    UpdateHas(btb, pc, taken, target, x, y);
    TableHas(UpdateBtb(btb, pc, taken, target), x, y);
    TableHas(btb, x, y);
    hide UpdateBtb, Table, UniquePcs, FindPc, FindFree, Has;
  }

  datatype BranchOutcome = BranchOutcome(pc: Word, taken: bool, target: Word)

  function UpdateAll(btb: seq<BtbEntry>, us: seq<BranchOutcome>): seq<BtbEntry> {
    if us == [] then btb
    else
      var u := us[|us| - 1];
      UpdateBtb(UpdateAll(btb, us[..|us| - 1]), u.pc, u.taken, u.target)
  }

  function TableUpdateAll(t: map<Word, Word>, capacity: nat, us: seq<BranchOutcome>): map<Word, Word> {
    if us == [] then t
    else
      var u := us[|us| - 1];
      TableUpdate(TableUpdateAll(t, capacity, us[..|us| - 1]), capacity, u.pc, u.taken, u.target)
  }

  /** Over every sequence of updates the buffer is the bounded map, and no two
      valid entries share a pc. */
  lemma {:induction false} BufferIsTable(btb: seq<BtbEntry>, us: seq<BranchOutcome>)
    requires UniquePcs(btb)
    ensures UniquePcs(UpdateAll(btb, us)) && |UpdateAll(btb, us)| == |btb|
    ensures Table(UpdateAll(btb, us)) == TableUpdateAll(Table(btb), |btb|, us)
  {
    hide UpdateBtb, UniquePcs, Table;
    if us != [] {
      var u := us[|us| - 1];
      BufferIsTable(btb, us[..|us| - 1]);
      UpdateIsTable(UpdateAll(btb, us[..|us| - 1]), u.pc, u.taken, u.target);
    }
  }

  // ------------------------------------------------------ return address stack

  /** The slots that an 8-bit index can reach. */
  function Slots(p: Predictor): nat {
    if |p.ras| <= 256 then |p.ras| else 256
  }

  /** Stepping forward and stepping back are inverse: the stack has at most 256
      slots, or a multiple of that. */
  predicate Reversible(p: Predictor) {
    p.rasNext < Slots(p) && (|p.ras| <= 256 || |p.ras| % 256 == 0)
  }

  lemma Reduce(x: nat, n: nat)
    requires 0 < n && x < 2 * n
    ensures x % n == if x < n then x else x - n
  {
    if x < n { Geometry.DivUnique(x, n, 0, x); } else { Geometry.DivUnique(x, n, 1, x - n); }
  }

  /** The slot that a pop reads next. */
  function PopSlot(p: Predictor): nat {
    (p.rasNext + |p.ras| - 1) % |p.ras| % 256
  }

  lemma PopSlotIs(p: Predictor)
    requires Reversible(p)
    ensures PopSlot(p) == if p.rasNext > 0 then p.rasNext - 1 else Slots(p) - 1
  {
    Reduce(p.rasNext + |p.ras| - 1, |p.ras|);
    if p.rasNext == 0 && |p.ras| > 256 { LastOfMultiple(|p.ras|); }
  }

  lemma LastOfMultiple(n: nat)
    requires n > 0 && n % 256 == 0
    ensures (n - 1) % 256 == 255
  {
  }

  lemma PushSlotIs(p: Predictor, x: Word)
    requires p.rasNext < Slots(p)
    ensures PushRas(p, x).rasNext == if p.rasNext + 1 < Slots(p) then p.rasNext + 1 else 0
  {
    Reduce((p.rasNext + 1) % 256, |p.ras|);
  }

  /** A pop right after a push reads the slot that was written, exactly when
      the size is at most 256 or a multiple of it, or the index does not wrap. */
  lemma PushThenPopIff(p: Predictor, x: Word)
    requires p.rasNext < Slots(p)
    ensures PopSlot(PushRas(p, x)) == p.rasNext <==> |p.ras| <= 256 || |p.ras| % 256 == 0 || p.rasNext != 255
  {
    PushSlotIs(p, x);
    var q := PushRas(p, x);
    Reduce(q.rasNext + |p.ras| - 1, |p.ras|);
  }

  /** How many slots back from the next free one the `i`-th youngest is. */
  function Back(p: Predictor, i: nat): nat
    requires i < Slots(p) && p.rasNext < Slots(p)
  {
    if i < p.rasNext then p.rasNext - 1 - i else p.rasNext + Slots(p) - 1 - i
  }

  /** The ideal, unbounded stack, youngest first, and how many of its youngest
      values the circular buffer still has. */
  datatype Ideal = Ideal(stack: seq<Word>, intact: nat)

  function IdealPush(s: Ideal, slots: nat, x: Word): Ideal {
    Ideal([x] + s.stack, if s.intact < slots then s.intact + 1 else slots)
  }

  function IdealPop(s: Ideal): (Word, Ideal) {
    if s.stack == [] then (0, s)
    else (s.stack[0], Ideal(s.stack[1..], if s.intact > 0 then s.intact - 1 else 0))
  }

  /** The buffer holds the intact youngest values of the ideal stack. */
  predicate Holds(p: Predictor, s: Ideal) {
    && Reversible(p)
    && s.intact <= Slots(p) && s.intact <= |s.stack|
    && forall i :: 0 <= i < s.intact ==> p.ras[Back(p, i)] == s.stack[i]
  }

  /** And its count has not wrapped. */
  predicate Tracks(p: Predictor, s: Ideal) {
    Holds(p, s) && p.rasCount == |s.stack|
  }

  lemma PushHolds(p: Predictor, s: Ideal, x: Word)
    requires Holds(p, s)
    ensures Holds(PushRas(p, x), IdealPush(s, Slots(p), x))
  {
    PushSlotIs(p, x);
    var q, t := PushRas(p, x), IdealPush(s, Slots(p), x);
    forall i | 0 <= i < t.intact ensures q.ras[Back(q, i)] == t.stack[i] {
      if i > 0 {
        assert Back(q, i) == Back(p, i - 1);
        assert Back(p, i - 1) != p.rasNext;
        assert t.stack[i] == s.stack[i - 1];
      } else {
        assert Back(q, 0) == p.rasNext;
      }
    }
  }

  lemma PopHolds(p: Predictor, s: Ideal)
    requires Holds(p, s) && p.rasCount > 0 && s.stack != []
    ensures Holds(PopRas(p).1, IdealPop(s).1)
    ensures s.intact > 0 ==> PopRas(p).0 == IdealPop(s).0
  {
    PopSlotIs(p);
    var q, t := PopRas(p).1, IdealPop(s).1;
    assert q.rasNext == PopSlot(p) == Back(p, 0);
    forall i | 0 <= i < t.intact ensures q.ras[Back(q, i)] == t.stack[i] {
      assert Back(q, i) == Back(p, i + 1);
    }
  }

  lemma PushTracks(p: Predictor, s: Ideal, x: Word)
    requires Tracks(p, s) && |s.stack| < 255
    ensures Tracks(PushRas(p, x), IdealPush(s, Slots(p), x))
  {
    PushHolds(p, s, x);
    hide Holds;
  }

  /** A pop returns the top of the ideal stack whenever it is intact, and 0 when
      the stack is empty. */
  lemma PopTracks(p: Predictor, s: Ideal)
    requires Tracks(p, s)
    ensures Tracks(PopRas(p).1, IdealPop(s).1)
    ensures s.intact > 0 || s.stack == [] ==> PopRas(p).0 == IdealPop(s).0
  {
    if s.stack != [] { PopHolds(p, s); }
  }

  datatype Call = Call(returnPc: Word) | Return

  datatype Trail<S> = Trail(state: S, popped: seq<Word>)

  function CallAll(p: Predictor, cs: seq<Call>): Trail<Predictor> {
    if cs == [] then Trail(p, [])
    else
      var r := CallAll(p, cs[..|cs| - 1]);
      match cs[|cs| - 1]
      case Call(x) => Trail(PushRas(r.state, x), r.popped)
      case Return => var (x, q) := PopRas(r.state); Trail(q, r.popped + [x])
  }

  function IdealAll(s: Ideal, slots: nat, cs: seq<Call>): Trail<Ideal> {
    if cs == [] then Trail(s, [])
    else
      var r := IdealAll(s, slots, cs[..|cs| - 1]);
      match cs[|cs| - 1]
      case Call(x) => Trail(IdealPush(r.state, slots, x), r.popped)
      case Return => var (x, q) := IdealPop(r.state); Trail(q, r.popped + [x])
  }

  /** At every return the value to be popped is still in the buffer, or the
      stack is empty; and the count never wraps. */
  predicate Nested(s: Ideal, slots: nat, cs: seq<Call>) {
    cs == [] ||
    (var r := IdealAll(s, slots, cs[..|cs| - 1]).state;
     Nested(s, slots, cs[..|cs| - 1]) &&
     if cs[|cs| - 1].Call? then |r.stack| < 255 else r.intact > 0 || r.stack == [])
  }

  lemma SlotsKept(p: Predictor, x: Word)
    ensures Slots(PushRas(p, x)) == Slots(p) && Slots(PopRas(p).1) == Slots(p)
  {
  }

  /** Over every such sequence of calls and returns, the returns get what an
      unbounded stack would give them. */
  lemma {:induction false} CallsAreStack(p: Predictor, s: Ideal, cs: seq<Call>)
    requires Tracks(p, s) && Nested(s, Slots(p), cs)
    ensures CallAll(p, cs).popped == IdealAll(s, Slots(p), cs).popped
    ensures Tracks(CallAll(p, cs).state, IdealAll(s, Slots(p), cs).state) && Slots(CallAll(p, cs).state) == Slots(p)
  {
    if cs != [] {
      CallsAreStack(p, s, cs[..|cs| - 1]);
      var q, t := CallAll(p, cs[..|cs| - 1]).state, IdealAll(s, Slots(p), cs[..|cs| - 1]).state;
      hide Tracks, PushRas, PopRas, IdealPush, IdealPop, Slots;
      match cs[|cs| - 1]
      case Call(x) =>
        PushTracks(q, t, x);
        SlotsKept(q, x);
      case Return =>
        PopTracks(q, t);
        SlotsKept(q, 0);
    }
  }

  function Calls(xs: seq<Word>): seq<Call> {
    seq(|xs|, i requires 0 <= i < |xs| => Call(xs[i]))
  }

  function Returns(n: nat): seq<Call> {
    seq(n, _ => Return)
  }

  /** The last `n` of `xs`, youngest first. */
  function Youngest(xs: seq<Word>, n: nat): seq<Word>
    requires n <= |xs|
  {
    seq(n, i requires 0 <= i < n => xs[|xs| - 1 - i])
  }

  lemma {:induction false} CountWraps(p: Predictor, xs: seq<Word>)
    ensures CallAll(p, Calls(xs)).state.rasCount == (p.rasCount + |xs|) % 256
  {
    if xs != [] {
      var n := |xs| - 1;
      CountWraps(p, xs[..n]);
      assert Calls(xs)[..n] == Calls(xs[..n]);
      hide Calls;
      WrapStep(p.rasCount + n);
    }
  }

  lemma WrapStep(k: nat)
    ensures (k % 256 + 1) % 256 == (k + 1) % 256
  {
  }

  /** After any number of calls the buffer holds the youngest addresses, as many
      as it has slots. */
  lemma {:induction false} AllPushed(p: Predictor, xs: seq<Word>)
    requires Reversible(p)
    ensures var r := CallAll(p, Calls(xs));
            && r.popped == [] && Slots(r.state) == Slots(p)
            && Holds(r.state, Ideal(Youngest(xs, |xs|), if |xs| < Slots(p) then |xs| else Slots(p)))
  {
    if xs != [] {
      var n := |xs| - 1;
      AllPushed(p, xs[..n]);
      assert Calls(xs)[..n] == Calls(xs[..n]);
      assert [xs[n]] + Youngest(xs[..n], n) == Youngest(xs, n + 1);
      var q := CallAll(p, Calls(xs[..n])).state;
      PushHolds(q, Ideal(Youngest(xs[..n], n), if n < Slots(p) then n else Slots(p)), xs[n]);
      SlotsKept(q, xs[n]);
      hide Holds, PushRas, Youngest, Calls, Slots;
    }
  }

  /** What the next `n` returns get: the youngest addresses while the 8-bit count
      lasts, then 0. */
  function Predicted(xs: seq<Word>, n: nat): seq<Word>
    requires n <= |xs|
  {
    seq(n, i requires 0 <= i < n => if i < |xs| % 256 then xs[|xs| - 1 - i] else 0)
  }

  lemma OneReturn(p: Predictor, cs: seq<Call>)
    ensures var r := CallAll(p, cs);
            var (x, q) := PopRas(r.state);
            CallAll(p, cs + [Return]) == Trail(q, r.popped + [x])
  {
    assert (cs + [Return])[..|cs|] == cs;
    hide PopRas;
  }

  lemma YoungestRest(xs: seq<Word>, n: nat)
    requires 0 < n <= |xs|
    ensures Youngest(xs, |xs|)[n - 1..] == [xs[|xs| - n]] + Youngest(xs, |xs|)[n..]
  {
  }

  lemma PredictedStep(xs: seq<Word>, n: nat)
    requires 0 < n <= |xs|
    ensures Predicted(xs, n) == Predicted(xs, n - 1) + [if n - 1 < |xs| % 256 then xs[|xs| - n] else 0]
  {
  }

  /** The state after `n` returns. */
  predicate AfterReturns(p: Predictor, xs: seq<Word>, n: nat, r: Trail<Predictor>)
    requires n <= |xs| && n <= Slots(p)
  {
    && r.popped == Predicted(xs, n) && Slots(r.state) == Slots(p)
    && r.state.rasCount == (if n < |xs| % 256 then |xs| % 256 - n else 0)
    && (n <= |xs| % 256 ==>
          Holds(r.state, Ideal(Youngest(xs, |xs|)[n..], (if |xs| < Slots(p) then |xs| else Slots(p)) - n)))
  }

  lemma {:induction false} ReturnsGet(p: Predictor, xs: seq<Word>, n: nat)
    requires Reversible(p) && p.rasCount == 0 && n <= |xs| && n <= Slots(p)
    ensures AfterReturns(p, xs, n, CallAll(p, Calls(xs) + Returns(n)))
    decreases n
  {
    if n == 0 {
      AllPushed(p, xs);
      CountWraps(p, xs);
      assert Calls(xs) + Returns(0) == Calls(xs);
      assert Youngest(xs, |xs|)[0..] == Youngest(xs, |xs|);
      hide Holds, CallAll, Calls, Slots, Youngest;
    } else {
      ReturnsGet(p, xs, n - 1);
      assert Calls(xs) + Returns(n) == Calls(xs) + Returns(n - 1) + [Return];
      OneReturn(p, Calls(xs) + Returns(n - 1));
      YoungestRest(xs, n);
      PredictedStep(xs, n);
      var q := CallAll(p, Calls(xs) + Returns(n - 1)).state;
      SlotsKept(q, 0);
      if n - 1 < |xs| % 256 {
        var m := if |xs| < Slots(p) then |xs| else Slots(p);
        PopHolds(q, Ideal(Youngest(xs, |xs|)[n - 1..], m - (n - 1)));
      }
      PopCounts(q);
      hide Holds, CallAll, Calls, Returns, Youngest, Predicted, Slots, PopRas, Reversible;
    }
  }

  lemma PopCounts(p: Predictor)
    ensures PopRas(p).1.rasCount == if p.rasCount == 0 then 0 else p.rasCount - 1
    ensures p.rasCount == 0 ==> PopRas(p).0 == 0
  {
  }

  /** After any number of calls, the next returns get the youngest addresses back
      in reverse order, as many as there are slots, exactly when the addresses
      beyond the 8-bit count are 0: always for fewer than 256 calls, and after a
      multiple of 256 only if all those addresses are 0. */
  lemma YoungestComeBackIff(p: Predictor, xs: seq<Word>, n: nat)
    requires Reversible(p) && p.rasCount == 0 && n <= |xs| && n <= Slots(p)
    ensures CallAll(p, Calls(xs) + Returns(n)).popped == Youngest(xs, n)
       <==> |xs| < 256 || n <= |xs| % 256 || forall i :: |xs| % 256 <= i < n ==> Youngest(xs, n)[i] == 0
  {
    hide CallAll, Calls, Returns, Holds, Slots, Reversible;
    ReturnsGet(p, xs, n);
    PredictedIff(xs, n);
    hide Youngest, Predicted;
  }

  lemma PredictedIff(xs: seq<Word>, n: nat)
    requires n <= |xs|
    ensures Predicted(xs, n) == Youngest(xs, n)
       <==> |xs| < 256 || n <= |xs| % 256 || forall i :: |xs| % 256 <= i < n ==> Youngest(xs, n)[i] == 0
  {
    var got, want := Predicted(xs, n), Youngest(xs, n);
    if got == want {
      assert forall i :: |xs| % 256 <= i < n ==> got[i] == 0;
    } else {
      var i :| 0 <= i < n && got[i] != want[i];
      assert i >= |xs| % 256;
    }
  }
}
