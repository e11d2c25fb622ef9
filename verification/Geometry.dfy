/** Addresses and cache blocks: how `Cache::getLocation` splits an address and
    `Cache::getAddress` puts it together again. */
module Geometry {
  import opened Words

  datatype Location = Location(tag: nat, index: nat, offset: nat)

  /** Sizes and delays; the source takes them from config.json. A block keeps its
      size in 8 bits, so its array has `blkSize` bytes only below 256. */
  datatype Sizes = Sizes(blkSize: nat, numSets: nat, assoc: nat,
                         entries: nat, subentries: nat, delay: nat, memDelay: nat)

  type Config = c: Sizes |
      && 0 < c.blkSize < 0x100 && 0 < c.numSets <= 0x1_0000_0000 && c.assoc > 0
      && c.entries > 0 && c.subentries > 0 && c.delay > 0
      witness Sizes(1, 1, 1, 1, 1, 1, 0)

  /** How many bytes the constructor of a block allocates. */
  function Allocated(blkSize: nat): nat {
    blkSize % 0x100
  }

  /** A block can hold its bytes exactly when its size fits in 8 bits: a size of
      256 gets an empty array. */
  lemma BlockHoldsItsBytesIff(blkSize: nat)
    ensures blkSize <= Allocated(blkSize) <==> blkSize < 0x100
    ensures Allocated(256) == 0
  {
  }

  ghost predicate IsPow2(n: nat) {
    exists k: nat :: Pow2(k) == n
  }

  /** Power-of-two block size and set count that fit a 32-bit address. */
  ghost predicate ValidConfig(c: Config) {
    IsPow2(c.blkSize) && IsPow2(c.numSets) && c.blkSize * c.numSets <= 0x1_0000_0000
  }

  lemma {:induction false} AndAtMost(m: nat, a: nat, n: nat)
    ensures Bitwise(And, m, a, n) <= m
  {
    if n > 0 { AndAtMost(m / 2, a / 2, n - 1); }
  }

  /** The bitwise AND with `numSets - 1` selects the set. */
  function SetIndex(c: Config, block: Word): (i: Word)
    ensures i < c.numSets
  {
    AndAtMost(c.numSets - 1, block, 32);
    BitwiseWord(And, c.numSets - 1, block)
  }

  lemma Split(x: nat, d: int)
    requires d > 0
    ensures 0 <= x / d <= x && 0 <= x % d < d
  {
    DivMod(x, d);
  }

  function GetLocation(c: Config, addr: Word): (l: Location)
    ensures l.index < c.numSets && l.offset < c.blkSize
  {
    Split(addr, c.blkSize);
    Split(addr / c.blkSize, c.numSets);
    Location(addr / c.blkSize / c.numSets, SetIndex(c, addr / c.blkSize), addr % c.blkSize)
  }

  /** Each step of the 32-bit computation may wrap. */
  function GetAddress(c: Config, l: Location): Word {
    Wrap(Wrap(Wrap(Wrap(l.tag * c.numSets) + l.index) * c.blkSize) + l.offset)
  }

  /** Address of the first byte of the block of `addr`. */
  function Base(c: Config, addr: Word): (b: Word)
    ensures b <= addr < b + c.blkSize
  {
    DivMod(addr, c.blkSize);
    addr - addr % c.blkSize
  }

  // --------------------------------------------------------------- arithmetic

  lemma DivMod(x: nat, d: int)
    requires d > 0
    ensures x == d * (x / d) + x % d && 0 <= x % d < d && 0 <= x / d <= x && x % d <= x
  {
    Shrinks(x, d);
    assert x == d * (x / d) + x % d;
    assert d * (x / d) >= 0;
  }

  lemma Shrinks(v: nat, d: int)
    requires d >= 1
    ensures 0 <= v / d <= v
  {
    var q := v / d;
    assert v == d * q + v % d;
    AtLeastOne(d, q);
  }

  lemma DivUnique(x: nat, d: int, q: nat, r: nat)
    requires d > 0 && x == q * d + r && r < d
    ensures x / d == q && x % d == r
  {
    DivMod(x, d);
    var p := x / d - q;
    assert x / d == q + p;
    assert d * (x / d) == d * q + d * p;
    assert d * p == r - x % d;
    AtLeastOne(d, p);
  }

  lemma AtLeastOne(d: int, p: int)
    requires d > 0
    ensures p > 0 ==> d * p >= d && d * p >= p
    ensures p < 0 ==> d * p <= -d
  {
  }

  /** AND with a mask of `k` ones is the remainder modulo 2 to the `k`. */
  lemma {:induction false} MaskIsMod(k: nat, a: nat, n: nat)
    requires k <= n
    ensures Pow2(k) >= 1 && Bitwise(And, Pow2(k) - 1, a, n) == a % Pow2(k)
    decreases n
  {
    if k == 0 {
      ZeroMask(a, n);
    } else {
      MaskIsMod(k - 1, a / 2, n - 1);
      var h := Pow2(k - 1);
      assert Pow2(k) == 2 * h;
      hide Pow2, Bitwise;
      MaskStep(h, a, n - 1);
    }
  }

  lemma MaskStep(h: nat, a: nat, n: nat)
    requires h > 0 && Bitwise(And, h - 1, a / 2, n) == a / 2 % h
    ensures Bitwise(And, 2 * h - 1, a, n + 1) == a % (2 * h)
  {
    OddMask(h);
    AndOfOdd(2 * h - 1, a, n);
    ModOfDouble(a, h);
  }

  lemma AndOfOdd(m: nat, a: nat, n: nat)
    requires m % 2 == 1
    ensures Bitwise(And, m, a, n + 1) == a % 2 + 2 * Bitwise(And, m / 2, a / 2, n)
  {
  }

  lemma OddMask(h: nat)
    requires h > 0
    ensures (2 * h - 1) / 2 == h - 1 && (2 * h - 1) % 2 == 1
  {
  }

  lemma ModOfDouble(a: nat, h: nat)
    requires h > 0
    ensures a % (2 * h) == a % 2 + 2 * (a / 2 % h)
  {
    DivMod(a / 2, h);
    var q, r := a / 2 / h, a / 2 % h;
    Regroup(h, q, r, a % 2);
    DivUnique(a, 2 * h, q, 2 * r + a % 2);
  }

  lemma Regroup(h: nat, q: nat, r: nat, b: nat)
    ensures 2 * (h * q + r) + b == q * (2 * h) + (2 * r + b)
  {
  }

  lemma {:induction false} ZeroMask(a: nat, n: nat)
    ensures Bitwise(And, 0, a, n) == 0
  {
    if n > 0 {
      ZeroMask(a / 2, n - 1);
    }
  }

  // ------------------------------------------------------------ address split

  lemma LocationIsSplit(c: Config, a: Word)
    requires ValidConfig(c)
    ensures GetLocation(c, a) == Location(a / c.blkSize / c.numSets, a / c.blkSize % c.numSets, a % c.blkSize)
  {
    Shrinks(a, c.blkSize);
    var k: nat :| Pow2(k) == c.numSets;
    SmallPower(k);
    MaskIsMod(k, a / c.blkSize, 32);
  }

  lemma AtMostProduct(x: nat, y: nat)
    requires x > 0
    ensures y <= x * y
  {
  }

  lemma {:induction false} SmallPower(k: nat)
    requires Pow2(k) <= 0x1_0000_0000
    ensures k <= 32
  {
    if k > 32 {
      Pow2At32();
      PowGrows(33, k);
    }
  }

  lemma {:induction false} PowGrows(i: nat, j: nat)
    requires i <= j
    ensures Pow2(i) <= Pow2(j)
    decreases j
  {
    if i < j { PowGrows(i, j - 1); }
  }

  predicate InRange(c: Config, l: Location) {
    l.index < c.numSets && l.offset < c.blkSize && (l.tag * c.numSets + l.index) * c.blkSize + l.offset < 0x1_0000_0000
  }

  /** No step of `getAddress` wraps on a location in range. */
  lemma AddressIsSum(c: Config, l: Location)
    requires ValidConfig(c) && InRange(c, l)
    ensures GetAddress(c, l) == (l.tag * c.numSets + l.index) * c.blkSize + l.offset
  {
    hide Wrap;
    var p := l.tag * c.numSets;
    var q := p + l.index;
    var b := q * c.blkSize;
    assert q <= b by { AtMostProduct(c.blkSize, q); }
    WrapIsId(p);
    WrapIsId(q);
    WrapIsId(b);
    WrapIsId(b + l.offset);
  }

  lemma WrapIsId(x: int)
    requires 0 <= x < 0x1_0000_0000
    ensures Wrap(x) == x
  {
  }

  /** The split loses nothing: an address is rebuilt from its location. */
  lemma SplitThenJoin(c: Config, a: Word)
    requires ValidConfig(c)
    ensures InRange(c, GetLocation(c, a)) && GetAddress(c, GetLocation(c, a)) == a
  {
    LocationIsSplit(c, a);
    var q := a / c.blkSize;
    DivMod(a, c.blkSize);
    DivMod(q, c.numSets);
    var l := Location(q / c.numSets, q % c.numSets, a % c.blkSize);
    assert l.tag * c.numSets + l.index == q;
    assert q * c.blkSize + l.offset == a;
    AddressIsSum(c, l);
  }

  /** And every location in range is the split of its address. */
  lemma JoinThenSplit(c: Config, l: Location)
    requires ValidConfig(c) && InRange(c, l)
    ensures GetLocation(c, GetAddress(c, l)) == l
  {
    AddressIsSum(c, l);
    var a := GetAddress(c, l);
    LocationIsSplit(c, a);
    var q := l.tag * c.numSets + l.index;
    DivUnique(a, c.blkSize, q, l.offset);
    DivUnique(q, c.numSets, l.tag, l.index);
  }

  /** Two addresses share tag and set exactly when they are in one block. */
  lemma SameBlock(c: Config, a: Word, b: Word)
    requires ValidConfig(c)
    ensures var l, k := GetLocation(c, a), GetLocation(c, b);
            (l.tag == k.tag && l.index == k.index) <==> Base(c, a) == Base(c, b)
  {
    LocationIsSplit(c, a);
    LocationIsSplit(c, b);
    DivMod(a, c.blkSize);
    DivMod(b, c.blkSize);
    DivMod(a / c.blkSize, c.numSets);
    DivMod(b / c.blkSize, c.numSets);
    var l, k := GetLocation(c, a), GetLocation(c, b);
    assert Base(c, a) == c.blkSize * (a / c.blkSize) && Base(c, b) == c.blkSize * (b / c.blkSize);
    if Base(c, a) == Base(c, b) {
      DivUnique(Base(c, a), c.blkSize, a / c.blkSize, 0);
      DivUnique(Base(c, a), c.blkSize, b / c.blkSize, 0);
    }
  }
}
