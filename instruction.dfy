/**
 * Decoding of one 16-bit CHIP-8 instruction word.
 *
 * The decoder keeps the raw word and recomputes every field from it on each
 * call; the fields are never cached. Masking a word with a run of ones and
 * shifting it right is written here as division by a power of two followed
 * by a remainder, which is what those operations compute on an unsigned
 * value.
 */
module InstructionDecoder {
  import opened Bytes

  datatype Instruction = Instruction(instruction: u16) {

    /** The instruction family: bits 12-15. */
    function OpCode(): (r: u8)
      ensures r < 16
      ensures r * 0x1000 <= instruction < (r + 1) * 0x1000
    {
      instruction / 0x1000
    }

    /** The first register index: bits 8-11. */
    function X(): (r: nat)
      ensures r < 16
    {
      (instruction / 0x100) % 0x10
    }

    /** The second register index: bits 4-7. */
    function Y(): (r: nat)
      ensures r < 16
    {
      (instruction / 0x10) % 0x10
    }

    /**
     * Both register indices, in the order the handlers destructure them:
     * together they are the middle byte of the word.
     */
    function XY(): (r: seq<nat>)
      ensures |r| == 2 && r[0] == X() && r[1] == Y()
      ensures r[0] * 0x10 + r[1] == instruction / 0x10 % 0x100
    {
      MiddleByte(instruction);
      [X(), Y()]
    }

    /** The low nibble: a 4-bit immediate or sub-opcode selector. */
    function N(): (r: u8)
      ensures r < 16
    {
      instruction % 0x10
    }

    /** The low byte: an 8-bit immediate or sub-opcode selector, made of the low two nibbles. */
    function NN(): (r: u8)
      ensures r == Y() * 0x10 + N()
    {
      assert instruction % 0x100 == (instruction / 0x10) % 0x10 * 0x10 + instruction % 0x10;
      instruction % 0x100
    }

    /** The low 12 bits: an absolute address. */
    function NNN(): (r: u16)
      ensures r < 0x1000
    {
      instruction % 0x1000
    }
  }

  lemma MiddleByte(w: nat)
    ensures (w / 0x100) % 0x10 * 0x10 + (w / 0x10) % 0x10 == w / 0x10 % 0x100
  {
    var q := w / 0x10;
    var a, b := q / 0x10, q % 0x10;
    DivisionUnique(w, 0x100, a, b * 0x10 + w % 0x10);
    DivisionUnique(q, 0x100, a / 0x10, a % 0x10 * 0x10 + b);
  }

  /** The four nibbles put back together give the word they came from. */
  lemma Reassemble(ins: Instruction)
    ensures ins.OpCode() * 0x1000 + ins.X() * 0x100 + ins.Y() * 0x10 + ins.N() == ins.instruction
  {
    FieldsNest(ins);
  }

  /** The byte and address operands are made of the smaller fields. */
  lemma FieldsNest(ins: Instruction)
    ensures ins.NN() == ins.Y() * 0x10 + ins.N()
    ensures ins.NNN() == ins.X() * 0x100 + ins.NN()
    ensures ins.NNN() == ins.instruction - ins.OpCode() * 0x1000
  {
    var w := ins.instruction;
    assert w % 0x100 == (w / 0x10) % 0x10 * 0x10 + w % 0x10;
    assert w % 0x1000 == (w / 0x100) % 0x10 * 0x100 + w % 0x100;
  }

  /** Decoding loses nothing: two words with the same four nibbles are the same word. */
  lemma {:induction false} NibblesDetermineWord(a: Instruction, b: Instruction)
    requires a.OpCode() == b.OpCode() && a.X() == b.X() && a.Y() == b.Y() && a.N() == b.N()
    ensures a == b
  {
    Reassemble(a);
    Reassemble(b);
  }

  /** Four nibbles packed into a word decode back to the same four nibbles. */
  lemma {:induction false} EncodeDecode(op: nat, x: nat, y: nat, n: nat)
    requires op < 16 && x < 16 && y < 16 && n < 16
    ensures var ins := Instruction(op * 0x1000 + x * 0x100 + y * 0x10 + n);
            ins.OpCode() == op && ins.X() == x && ins.Y() == y && ins.N() == n
  {
    var w := op * 0x1000 + x * 0x100 + y * 0x10 + n;
    DivisionUnique(w, 0x1000, op, x * 0x100 + y * 0x10 + n);
    DivisionUnique(w, 0x100, op * 0x10 + x, y * 0x10 + n);
    DivisionUnique(op * 0x10 + x, 0x10, op, x);
    DivisionUnique(w, 0x10, op * 0x100 + x * 0x10 + y, n);
    DivisionUnique(op * 0x100 + x * 0x10 + y, 0x10, op * 0x10 + x, y);
  }

  /**
   * The fields are what the decoder computes with masks and shifts:
   * `(w & 0xF000) >> 12`, `(w & 0x0F00) >> 8`, `(w & 0x00F0) >> 4`, `w & 0x000F`,
   * `w & 0x00FF` and `w & 0x0FFF`.
   */
  lemma FieldsAreMasks(ins: Instruction)
    ensures ins.OpCode() == Bits(And, ins.instruction, 0xF000, 16) / 0x1000
    ensures ins.X() == Bits(And, ins.instruction, 0x0F00, 16) / 0x100
    ensures ins.Y() == Bits(And, ins.instruction, 0x00F0, 16) / 0x10
    ensures ins.N() == Bits(And, ins.instruction, 0x000F, 16)
    ensures ins.NN() == Bits(And, ins.instruction, 0x00FF, 16)
    ensures ins.NNN() == Bits(And, ins.instruction, 0x0FFF, 16)
  {
    var w := ins.instruction;
    assert Pow2(4) == 0x10 && Pow2(8) == 0x100 && Pow2(12) == 0x1000;
    NibbleMask(w, 12);
    NibbleMask(w, 8);
    NibbleMask(w, 4);
    LowMask(w, 4);
    LowMask(w, 8);
    LowMask(w, 12);
  }

  /** `(w & (0xF << k)) >> k` is nibble `k / 4` of `w`. */
  lemma NibbleMask(w: u16, k: nat)
    requires k == 4 || k == 8 || k == 12
    ensures Bits(And, w, 0xF * Pow2(k), 16) / Pow2(k) == w / Pow2(k) % 0x10
  {
    var p := Pow2(k);
    assert Pow2(4) == 0x10;
    BitsAndMask(w, 4, k, 16);
    assert Bits(And, w, 0xF * p, 16) == w / p % 0x10 * p;
    DivisionUnique(w / p % 0x10 * p, p, w / p % 0x10, 0);
  }

  /** `w & ((1 << j) - 1)` is `w` modulo `2^j`. */
  lemma LowMask(w: u16, j: nat)
    requires j <= 16
    ensures Bits(And, w, Pow2(j) - 1, 16) == w % Pow2(j)
  {
    BitsAndLowMask(w, j, 16);
  }
}
