/** Machine words and bytes as bounded integers, with the arithmetic that the
    simulator gets from C++ `uint32_t` and `int32_t` written out. */
module Words {
  type Word = x: int | 0 <= x < 0x1_0000_0000
  type Byte = x: int | 0 <= x < 0x100

  /** Unsigned wrap-around at 32 bits. */
  function Wrap(x: int): Word {
    x % 0x1_0000_0000
  }

  /** The value of `(int32_t) w`. */
  function Signed(w: Word): int {
    if w < 0x8000_0000 then w else w - 0x1_0000_0000
  }

  function SignExtend16(h: int): Word
    requires 0 <= h < 0x1_0000
  {
    if h < 0x8000 then h else h + 0xFFFF_0000
  }

  function SignExtend8(b: int): Word
    requires 0 <= b < 0x100
  {
    if b < 0x80 then b else b + 0xFFFF_FF00
  }

  function Pow2(k: nat): (p: int)
    ensures p >= 1
  {
    if k == 0 then 1 else 2 * Pow2(k - 1)
  }

  lemma Pow2At32()
    ensures Pow2(32) == 0x1_0000_0000
  {
    assert Pow2(8) == 0x100;
    assert Pow2(16) == 0x1_0000;
    assert Pow2(24) == 0x100_0000;
  }

  datatype BitFn = And | Or | Xor | Nor

  predicate BitOf(fn: BitFn, x: bool, y: bool) {
    match fn
    case And => x && y
    case Or => x || y
    case Xor => x != y
    case Nor => !(x || y)
  }

  /** The bitwise operation `fn` on the `k` low bits. */
  function Bitwise(fn: BitFn, a: nat, b: nat, k: nat): (r: nat)
    ensures r < Pow2(k)
  {
    if k == 0 then 0
    else (if BitOf(fn, a % 2 == 1, b % 2 == 1) then 1 else 0) + 2 * Bitwise(fn, a / 2, b / 2, k - 1)
  }

  function BitwiseWord(fn: BitFn, a: Word, b: Word): Word {
    Pow2At32();
    Bitwise(fn, a, b, 32)
  }

  /** Left shift of a word, truncated to 32 bits. */
  function ShiftLeft(v: Word, s: nat): Word {
    if s == 0 then v else Wrap(2 * ShiftLeft(v, s - 1))
  }

  /** `x` divided by two `s` times, each time rounding down. */
  function Halved(x: int, s: nat): (r: int)
    ensures x >= 0 ==> 0 <= r <= x
    decreases s
  {
    if s == 0 then x else Halved(x / 2, s - 1)
  }

  function ShiftRightLogical(v: Word, s: nat): Word {
    Halved(v, s)
  }

  /** `(int32_t) v >> s`. */
  function ShiftRightArithmetic(v: Word, s: nat): Word {
    Wrap(Halved(Signed(v), s))
  }

  function Abs(x: int): nat {
    if x < 0 then -x else x
  }

  /** Quotient rounded toward zero, as in C++. */
  function TruncDiv(a: int, b: int): int
    requires b != 0
  {
    if (a < 0) != (b < 0) then -(Abs(a) / Abs(b)) else Abs(a) / Abs(b)
  }

  function TruncRem(a: int, b: int): int
    requires b != 0
  {
    a - b * TruncDiv(a, b)
  }
}
