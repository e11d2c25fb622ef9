/** The word operations mean what their names say. */
module WordProofs {
  import opened Words
  import Geometry

  // ------------------------------------------------------- signed and unsigned

  /** Wrap-around keeps the value modulo 2^32; the range is that of the type. */
  lemma WrapIsModular(x: int)
    ensures (Wrap(x) - x) % 0x1_0000_0000 == 0
  {
  }

  /** Two's complement: the signed value is the one in the signed range that is
      the word modulo 2^32. */
  lemma SignedIsTwosComplement(w: Word)
    ensures -0x8000_0000 <= Signed(w) < 0x8000_0000
    ensures (Signed(w) - w) % 0x1_0000_0000 == 0
  {
  }

  /** Sign extension keeps the low part and its signed value. */
  lemma SignExtensionKeepsValue(b: int, h: int)
    requires 0 <= b < 0x100 && 0 <= h < 0x1_0000
    ensures SignExtend8(b) % 0x100 == b && -0x80 <= Signed(SignExtend8(b)) < 0x80
    ensures SignExtend16(h) % 0x1_0000 == h && -0x8000 <= Signed(SignExtend16(h)) < 0x8000
  {
  }

  // -------------------------------------------------------------------- shifts

  /** Bit `i` of a natural number. */
  predicate Bit(x: nat, i: nat) {
    x / Pow2(i) % 2 == 1
  }

  lemma {:induction false} HalvedIsQuotient(x: int, s: nat)
    ensures Halved(x, s) == x / Pow2(s)
    decreases s
  {
    if s > 0 {
      HalvedIsQuotient(x / 2, s - 1);
      QuotientTwice(x, Pow2(s - 1));
    }
  }

  /** The right shifts of a word: its unsigned and its signed value divided by a
      power of two, rounded down. */
  lemma RightShiftsDivide(v: Word, s: nat)
    ensures ShiftRightLogical(v, s) == v / Pow2(s)
    ensures Signed(ShiftRightArithmetic(v, s)) == Signed(v) / Pow2(s)
  {
    HalvedIsQuotient(v, s);
    HalvedIsQuotient(Signed(v), s);
    HalvedStays(Signed(v), s);
  }

  lemma {:induction false} HalvedStays(x: int, s: nat)
    requires -0x8000_0000 <= x < 0x8000_0000
    ensures -0x8000_0000 <= Halved(x, s) < 0x8000_0000
    decreases s
  {
    if s > 0 { HalvedStays(x / 2, s - 1); }
  }

  lemma QuotientTwice(x: int, p: nat)
    requires p > 0
    ensures x / 2 / p == x / (2 * p)
  {
    var h := x / 2;
    var q := h / p;
    var r := h % p;
    assert h == p * q + r;
    assert x == 2 * h + x % 2;
    Regrouped(p, q, r, x % 2);
    QuotientUnique(x, 2 * p, q, 2 * r + x % 2);
  }

  lemma Regrouped(p: nat, q: int, r: int, b: int)
    ensures 2 * (p * q + r) + b == q * (2 * p) + (2 * r + b)
  {
  }

  lemma QuotientUnique(x: int, d: int, q: int, r: int)
    requires d > 0 && x == q * d + r && 0 <= r < d
    ensures x / d == q
  {
    var p := x / d - q;
    assert x == d * (x / d) + x % d;
    assert d * (x / d) == d * q + d * p;
    Geometry.AtLeastOne(d, p);
  }

  /** A left shift multiplies by a power of two and drops what does not fit. */
  lemma {:induction false} ShiftLeftIsProduct(v: Word, s: nat)
    ensures ShiftLeft(v, s) == Wrap(v * Pow2(s))
  {
    if s == 0 {
    } else {
      ShiftLeftIsProduct(v, s - 1);
      WrapTwice(v * Pow2(s - 1));
      assert 2 * (v * Pow2(s - 1)) == v * Pow2(s) by { Associated(v, Pow2(s - 1)); }
    }
  }

  lemma Associated(v: int, p: int)
    ensures 2 * (v * p) == v * (2 * p)
  {
  }

  lemma WrapTwice(x: int)
    ensures Wrap(2 * Wrap(x)) == Wrap(2 * x)
  {
    var m := 0x1_0000_0000;
    var q, r := x / m, x % m;
    var p, s := 2 * r / m, 2 * r % m;
    assert x == m * q + r && 2 * r == m * p + s;
    QuotientUnique(2 * x, m, p + 2 * q, s);
  }

  /** The lowest bit of the result, and the others. */
  lemma BitwiseStep(fn: BitFn, a: nat, b: nat, k: nat)
    requires k > 0
    ensures Bitwise(fn, a, b, k) % 2 == 1 <==> BitOf(fn, a % 2 == 1, b % 2 == 1)
    ensures Bitwise(fn, a, b, k) / 2 == Bitwise(fn, a / 2, b / 2, k - 1)
  {
    hide BitOf;
    var low := if BitOf(fn, a % 2 == 1, b % 2 == 1) then 1 else 0;
    assert Bitwise(fn, a, b, k) == low + 2 * Bitwise(fn, a / 2, b / 2, k - 1);
    hide *;
    LowBit(low, Bitwise(fn, a / 2, b / 2, k - 1));
  }

  lemma LowBit(low: nat, rest: nat)
    requires low < 2
    ensures (low + 2 * rest) % 2 == low && (low + 2 * rest) / 2 == rest
  {
  }

  lemma HalvedOnce(x: int, i: nat)
    requires i > 0
    ensures Halved(x, i) == Halved(x / 2, i - 1)
  {
  }

  lemma {:induction false} HalvedBit(fn: BitFn, a: nat, b: nat, k: nat, i: nat)
    requires i < k
    ensures Halved(Bitwise(fn, a, b, k), i) % 2 == 1 <==> BitOf(fn, Halved(a, i) % 2 == 1, Halved(b, i) % 2 == 1)
    decreases k
  {
    BitwiseStep(fn, a, b, k);
    if i > 0 {
      hide *;
      HalvedOnce(Bitwise(fn, a, b, k), i);
      HalvedOnce(a, i);
      HalvedOnce(b, i);
      HalvedBit(fn, a / 2, b / 2, k - 1, i - 1);
    } else {
      hide Bitwise, BitOf;
    }
  }

  /** Each bit of the result is the operation on the bits of the operands. */
  lemma BitwiseBit(fn: BitFn, a: nat, b: nat, k: nat, i: nat)
    requires i < k
    ensures Bit(Bitwise(fn, a, b, k), i) <==>
              match fn
              case And => Bit(a, i) && Bit(b, i)
              case Or => Bit(a, i) || Bit(b, i)
              case Xor => Bit(a, i) != Bit(b, i)
              case Nor => !Bit(a, i) && !Bit(b, i)
  {
    HalvedBit(fn, a, b, k, i);
    HalvedIsQuotient(Bitwise(fn, a, b, k), i);
    HalvedIsQuotient(a, i);
    HalvedIsQuotient(b, i);
    hide Halved, Bitwise;
  }

  /** A word operation works on all 32 bits. */
  lemma BitwiseWordBits(fn: BitFn, a: Word, b: Word, i: nat)
    requires i < 32
    ensures Bit(BitwiseWord(fn, a, b), i) <==>
              match fn
              case And => Bit(a, i) && Bit(b, i)
              case Or => Bit(a, i) || Bit(b, i)
              case Xor => Bit(a, i) != Bit(b, i)
              case Nor => !Bit(a, i) && !Bit(b, i)
  {
    BitwiseBit(fn, a, b, 32, i);
    hide Bitwise, Bit;
  }

  /** C++ division: the quotient is rounded toward zero, and the remainder has
      the sign of the dividend. */
  lemma TruncDivision(a: int, b: int)
    requires b != 0
    ensures a == b * TruncDiv(a, b) + TruncRem(a, b)
    ensures if b > 0 then -b < TruncRem(a, b) < b else b < TruncRem(a, b) < -b
    ensures TruncRem(a, b) != 0 ==> (TruncRem(a, b) < 0 <==> a < 0)
  {
    var q, r := Abs(a) / Abs(b), Abs(a) % Abs(b);
    assert Abs(a) == Abs(b) * q + r;
    SignedProduct(a, b, q, r);
  }

  lemma SignedProduct(a: int, b: int, q: int, r: int)
    requires b != 0 && Abs(a) == Abs(b) * q + r
    ensures (a < 0) == (b < 0) ==> a - b * q == if a < 0 then -r else r
    ensures (a < 0) != (b < 0) ==> a - b * -q == if a < 0 then -r else r
  {
    if b < 0 {
      assert Abs(b) * q == -(b * q) by { Negated(b, q); }
      Negated(b, q);
    } else {
      Negated(b, q);
    }
  }

  lemma Negated(b: int, q: int)
    ensures -b * q == -(b * q) && b * -q == -(b * q)
  {
  }
}
