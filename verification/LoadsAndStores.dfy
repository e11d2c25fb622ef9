/** What a program gets from the data cache for its loads and stores: a value
    stored in any width comes back in any width. */
module LoadsAndStores {
  import opened Words
  import opened Isa
  import opened Packets
  import opened PipeSpec
  import opened IsaAgreement
  import WordProofs

  /** The packet of a store of `size` bytes, and that of a load at `a`. */
  function StoreOf(size: Size, a: Word, v: Word): Packet {
    Packet(true, StorePacket, a, Bytes(size), StoreBytes(size, v))
  }

  function LoadOf(a: Word): Packet {
    Packet(false, LoadPacket, a / 4 * 4, 4, [0, 0, 0, 0])
  }

  /** What load opcode `c` at `a` gets after the memory `mem` served its packet. */
  function Loaded(mem: Mem, c: nat, a: Word): Word
    requires LoadOpcode(c)
  {
    Extract(c, a, WordOf(Served(mem, LoadOf(a)).data))
  }

  /** An aligned load gets the value at its address. */
  lemma LoadedIs(mem: Mem, c: nat, a: Word)
    requires LoadOpcode(c) && a % Bytes(SizeOf(c)) == 0
    ensures Loaded(mem, c, a) == LoadResult(mem, SizeOf(c), c < 0x24, a)
  {
    ExtractAgrees(mem, c, a);
    hide Extract, WordOf, ReadBytes, LoadResult, LoadOpcode, SizeOf;
  }

  lemma InsideWord(a: Word, k: nat)
    requires a % 4 == 0 && k < 4
    ensures a + k < 0x1_0000_0000 && (k % 2 == 0 ==> (a + k) % 2 == 0)
  {
    var q := a / 4;
    assert a == 4 * q;
    if k % 2 == 0 { Geometry.DivUnique(a + k, 2, 2 * q + k / 2, 0); }
  }

  /** A store changes the bytes at its address to those of its value, the least
      significant first, and no other byte. */
  lemma StoredBytes(mem: Mem, size: Size, a: Word, v: Word, x: int)
    ensures Get(After(mem, StoreOf(size, a, v)), x) ==
            if a <= x < a + Bytes(size) then ByteOf(v, x - a) else Get(mem, x)
  {
    GetAfterWrite(mem, a, StoreBytes(size, v), x);
    hide ByteOf, WriteBytes;
  }

  /** The low bytes of a word. */
  function LowPart(size: Size, v: Word): (l: Word)
    ensures size == OneByte ==> l < 0x100
    ensures size == Half ==> l < 0x1_0000
  {
    match size case OneByte => v % 0x100 case Half => v % 0x1_0000 case Full => v
  }

  lemma StoredRaw(mem: Mem, size: Size, a: Word, v: Word)
    ensures LoadRaw(After(mem, StoreOf(size, a, v)), size, a) == LowPart(size, v)
  {
    StoredBytes(mem, size, a, v, a);
    StoredBytes(mem, size, a, v, a + 1);
    StoredBytes(mem, size, a, v, a + 2);
    StoredBytes(mem, size, a, v, a + 3);
    BytesJoin(v);
    HalvesJoin(v);
    assert ByteOf(v, 0) == v % 0x100;
    hide After, StoreOf, Get, ByteOf;
    match size case OneByte => case Half => case Full =>
  }

  /** How many values a width has. */
  function Span(size: Size): nat {
    match size case OneByte => 0x100 case Half => 0x1_0000 case Full => 0x1_0000_0000
  }

  /** What a load makes of a part of that width with the value `l`: the low bits
      are those of `l`, and the rest follows from the range, signed or not. */
  predicate Extends(size: Size, signed: bool, l: int, x: Word) {
    && x % Span(size) == l % Span(size)
    && if signed then -(Span(size) / 2) <= Signed(x) < Span(size) / 2 else x < Span(size)
  }

  lemma ByteExtends(v: Word)
    ensures Extends(OneByte, true, v, SignExtend8(v % 0x100))
    ensures Extends(OneByte, false, v, v % 0x100)
  {
    WordProofs.SignExtensionKeepsValue(v % 0x100, 0);
    hide SignExtend8, SignExtend16, Signed;
  }

  lemma HalfExtends(v: Word)
    ensures Extends(Half, true, v, SignExtend16(v % 0x1_0000))
    ensures Extends(Half, false, v, v % 0x1_0000)
  {
    WordProofs.SignExtensionKeepsValue(0, v % 0x1_0000);
    hide SignExtend8, SignExtend16, Signed;
  }

  lemma FullExtends(v: Word, signed: bool)
    ensures Extends(Full, signed, v, v)
  {
    WordProofs.SignedIsTwosComplement(v);
    hide Signed;
  }

  lemma ExtensionExtends(size: Size, signed: bool, v: Word)
    ensures var l := LowPart(size, v);
            Extends(size, signed, v, if signed && size == OneByte then SignExtend8(l)
                                     else if signed && size == Half then SignExtend16(l)
                                     else l)
  {
    ByteExtends(v);
    HalfExtends(v);
    FullExtends(v, signed);
    hide SignExtend8, SignExtend16, Extends;
  }

  /** SB, SH or SW, then a load of the same width: the stored value comes back
      modulo the number of values of that width, in the signed range for LB, LH
      and LW and in the unsigned one for LBU and LHU. */
  lemma SameWidthRoundTrip(mem: Mem, c: nat, a: Word, v: Word)
    requires LoadOpcode(c) && a % Bytes(SizeOf(c)) == 0
    ensures Extends(SizeOf(c), c < 0x24, v, Loaded(After(mem, StoreOf(SizeOf(c), a, v)), c, a))
  {
    StoredRaw(mem, SizeOf(c), a, v);
    LoadedIs(After(mem, StoreOf(SizeOf(c), a, v)), c, a);
    ExtensionExtends(SizeOf(c), c < 0x24, v);
    hide After, Loaded, StoreOf, LoadRaw, LowPart, SignExtend8, SignExtend16, LoadOpcode, SizeOf, Extends;
  }

  lemma SmallStays(b: nat, h: nat)
    requires b < 0x100 && h < 0x1_0000
    ensures b % 0x100 == b && h % 0x1_0000 == h
  {
  }

  /** SW, then a byte load inside the word: LB and LBU get the byte that the
      value has there in little-endian order. */
  lemma ByteOfWord(mem: Mem, a: Word, v: Word, k: nat)
    requires a % 4 == 0 && k < 4
    ensures a + k < 0x1_0000_0000
    ensures var m := After(mem, StoreOf(Full, a, v));
            Loaded(m, OP_LBU, a + k) == ByteOf(v, k) && Extends(OneByte, true, ByteOf(v, k), Loaded(m, OP_LB, a + k))
  {
    var m := After(mem, StoreOf(Full, a, v));
    StoredBytes(mem, Full, a, v, a + k);
    InsideWord(a, k);
    ByteLoaded(m, a + k);
    hide After, Loaded, StoreOf, Get, ByteOf, SignExtend8, Extends;
    ByteExtends(ByteOf(v, k));
    SmallStays(ByteOf(v, k), 0);
  }

  lemma ByteLoaded(mem: Mem, a: Word)
    ensures Loaded(mem, OP_LBU, a) == Get(mem, a) && Loaded(mem, OP_LB, a) == SignExtend8(Get(mem, a))
  {
    LoadedIs(mem, OP_LBU, a);
    LoadedIs(mem, OP_LB, a);
    hide Loaded, Get, SignExtend8, SignExtend16;
  }

  /** The low or the high half of a word. */
  function HalfAt(v: Word, k: nat): (h: nat)
    ensures h < 0x1_0000
  {
    if k == 0 then v % 0x1_0000 else v / 0x1_0000
  }

  lemma HalfStored(mem: Mem, a: Word, v: Word, k: nat)
    requires k == 0 || k == 2
    ensures LoadRaw(After(mem, StoreOf(Full, a, v)), Half, a + k) == HalfAt(v, k)
  {
    StoredBytes(mem, Full, a, v, a + k);
    StoredBytes(mem, Full, a, v, a + k + 1);
    HalvesJoin(v);
    hide After, StoreOf, Get, ByteOf;
  }

  /** SW, then LH or LHU of one half of the word. */
  lemma HalfOfWord(mem: Mem, a: Word, v: Word, k: nat)
    requires a % 4 == 0 && (k == 0 || k == 2)
    ensures a + k < 0x1_0000_0000
    ensures var m := After(mem, StoreOf(Full, a, v));
            Loaded(m, OP_LHU, a + k) == HalfAt(v, k) && Extends(Half, true, HalfAt(v, k), Loaded(m, OP_LH, a + k))
  {
    HalfExtends(HalfAt(v, k));
    SmallStays(0, HalfAt(v, k));
    var m := After(mem, StoreOf(Full, a, v));
    HalfStored(mem, a, v, k);
    InsideWord(a, k);
    hide After, Loaded, StoreOf, LoadRaw, HalfAt, SignExtend16, Extends;
    LoadedIs(m, OP_LHU, a + k);
    LoadedIs(m, OP_LH, a + k);
  }

  lemma HalvesJoin(v: Word)
    ensures v % 0x1_0000 == ByteOf(v, 0) as int + 0x100 * ByteOf(v, 1) as int
    ensures v / 0x1_0000 == ByteOf(v, 2) as int + 0x100 * ByteOf(v, 3) as int
  {
    var d := [ByteOf(v, 0), ByteOf(v, 1), ByteOf(v, 2), ByteOf(v, 3)];
    BytesJoin(v);
    Lanes(d);
    hide ByteOf;
  }

  /** A narrow store changes its own part of a word and keeps the rest. */
  lemma NarrowStore(mem: Mem, size: Size, a: Word, v: Word, i: nat)
    requires a % Bytes(size) == 0 && i < 4
    ensures var b := a / 4 * 4;
            var w := Loaded(After(mem, StoreOf(size, a, v)), OP_LW, b);
            ByteOf(w, i) ==
              if a <= b + i < a + Bytes(size) then ByteOf(v, b + i - a) else ByteOf(Loaded(mem, OP_LW, b), i)
  {
    var b := a / 4 * 4;
    var m := After(mem, StoreOf(size, a, v));
    assert b / 4 * 4 == b;
    StoredBytes(mem, size, a, v, b + i);
    WordBytes(m, b, i);
    WordBytes(mem, b, i);
    hide After, Extract, WordOf, ReadBytes, StoreOf, Get, ByteOf, Loaded;
  }

  lemma WordBytes(mem: Mem, b: Word, i: nat)
    requires b % 4 == 0 && i < 4
    ensures ByteOf(Loaded(mem, OP_LW, b), i) == Get(mem, b + i)
  {
    var d := ReadBytes(mem, b, 4);
    assert b / 4 * 4 == b;
    Lanes(d);
    assert d[i] == Get(mem, b + i);
    hide Get, WordOf;
  }
}
