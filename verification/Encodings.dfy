/** The fields of an instruction word. */
module Encodings {
  import opened Words
  import opened Isa

  /** Where a field ends the next one begins. */
  lemma Shifted(w: Word)
    ensures w / 0x40 / 0x20 == w / 0x800
    ensures w / 0x800 / 0x20 == w / 0x1_0000
    ensures w / 0x1_0000 / 0x20 == w / 0x20_0000
    ensures w / 0x20_0000 / 0x20 == w / 0x400_0000
  {
  }

  lemma Ranges(w: Word)
    ensures Opcode(w) < 64 && Sa(w) < 32 && Funct(w) < 64 && Imm(w) < 0x1_0000 && Index(w) < 0x400_0000
  {
  }

  lemma Part(x: nat, d: int)
    requires d > 0
    ensures x == x / d * d + x % d
  {
  }

  /** The three formats lose nothing and overlap nowhere: opcode, two registers
      and either rd, shift amount and function, or 16 immediate bits; or opcode
      and jump index. With the ranges this determines every field. */
  lemma FieldsMakeWord(w: Word)
    ensures Opcode(w) < 64 && Sa(w) < 32 && Funct(w) < 64 && Imm(w) < 0x1_0000 && Index(w) < 0x400_0000
    ensures w == Opcode(w) * 0x400_0000 + Rs(w) * 0x20_0000 + Rt(w) * 0x1_0000 + Rd(w) * 0x800 + Sa(w) * 0x40 + Funct(w)
    ensures w == Opcode(w) * 0x400_0000 + Rs(w) * 0x20_0000 + Rt(w) * 0x1_0000 + Imm(w)
    ensures w == Opcode(w) * 0x400_0000 + Index(w)
  {
    Ranges(w);
    Shifted(w);
    Part(w, 0x40);
    Part(w / 0x40, 0x20);
    Part(w / 0x800, 0x20);
    Part(w, 0x1_0000);
    Part(w / 0x1_0000, 0x20);
    Part(w / 0x20_0000, 0x20);
    Part(w, 0x400_0000);
  }
}
