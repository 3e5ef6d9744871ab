/**
 * The fixed-width unsigned integers of the interpreter, as bounded
 * integers: `u8` for bytes and registers, `u16` for instruction words.
 *
 * Arithmetic is done on integers with the wrap-around written out. The
 * bitwise operators are defined bit by bit, lowest bit first, over a given
 * number of bits; shifts of unsigned values are division and
 * multiplication by powers of two.
 */
module Bytes {

  /** Rust's `u8`. */
  type u8 = x: int | 0 <= x < 0x100

  /** Rust's `u16`. */
  type u16 = x: int | 0 <= x < 0x1_0000

  function Pow2(n: nat): (r: nat)
    ensures r >= 1
  {
    if n == 0 then 1 else 2 * Pow2(n - 1)
  }

  lemma Pow2Eight()
    ensures Pow2(7) == 0x80 && Pow2(8) == 0x100
  {
  }

  // ---------------------------------------------------------------------
  // Wrapping arithmetic.

  /** `u8::wrapping_add`: the sum, less 256 when it does not fit. */
  function WrappingAdd(a: u8, b: u8): (r: u8)
    ensures a + b < 0x100 ==> r == a + b
    ensures a + b >= 0x100 ==> r == a + b - 0x100
  {
    (a + b) % 0x100
  }

  /** `u8::wrapping_sub`: the difference, plus 256 when it would be negative. */
  function WrappingSub(a: u8, b: u8): (r: u8)
    ensures a >= b ==> r == a - b
    ensures a < b ==> r == a - b + 0x100
  {
    (a - b) % 0x100
  }

  /** Wrapping subtraction and addition undo each other. */
  lemma WrappingSubAdd(a: u8, b: u8)
    ensures WrappingAdd(WrappingSub(a, b), b) == a
    ensures WrappingSub(WrappingAdd(a, b), b) == a
  {
  }

  // ---------------------------------------------------------------------
  // Bitwise operators.

  datatype BitOp = Or | And | Xor

  /** What an operator does to one pair of bits. */
  predicate Combine(op: BitOp, p: bool, q: bool) {
    match op
    case Or => p || q
    case And => p && q
    case Xor => p != q
  }

  /** `op` applied to the low `width` bits of `a` and `b`, pair by pair. */
  function Bits(op: BitOp, a: nat, b: nat, width: nat): (r: nat)
    ensures r < Pow2(width)
  {
    if width == 0 then 0
    else 2 * Bits(op, a / 2, b / 2, width - 1) + (if Combine(op, a % 2 == 1, b % 2 == 1) then 1 else 0)
  }

  /** `a | b` on bytes: only sets bits, so it is at least either operand. */
  function BitOr(a: u8, b: u8): (r: u8)
    ensures a <= r && b <= r
  {
    Pow2Eight();
    BitsOrCovers(a, b, 8);
    BitsOrCovers(b, a, 8);
    BitsCommute(Or, a, b, 8);
    Bits(Or, a, b, 8)
  }

  /** `a & b` on bytes: only clears bits, so it is at most either operand. */
  function BitAnd(a: u8, b: u8): (r: u8)
    ensures r <= a && r <= b
  {
    Pow2Eight();
    BitsAndWithin(a, b, 8);
    BitsAndWithin(b, a, 8);
    BitsCommute(And, a, b, 8);
    Bits(And, a, b, 8)
  }

  /** `a ^ b` on bytes: XOR-ing `b` in once more gives back `a`. */
  function BitXor(a: u8, b: u8): (r: u8)
    ensures Bits(Xor, r, b, 8) == a
  {
    Pow2Eight();
    BitsXorCancels(a, b, 8);
    Bits(Xor, a, b, 8)
  }

  /** Every operator is symmetric in its operands. */
  lemma {:induction false} BitsCommute(op: BitOp, a: nat, b: nat, width: nat)
    ensures Bits(op, a, b, width) == Bits(op, b, a, width)
  {
    if width > 0 {
      BitsCommute(op, a / 2, b / 2, width - 1);
    }
  }

  /** OR only sets bits: the result is at least the first operand. */
  lemma {:induction false} BitsOrCovers(a: nat, b: nat, width: nat)
    requires a < Pow2(width)
    ensures a <= Bits(Or, a, b, width)
  {
    if width > 0 {
      BitsOrCovers(a / 2, b / 2, width - 1);
    }
  }

  /** AND only clears bits: the result is at most the first operand. */
  lemma {:induction false} BitsAndWithin(a: nat, b: nat, width: nat)
    ensures Bits(And, a, b, width) <= a
  {
    if width > 0 {
      BitsAndWithin(a / 2, b / 2, width - 1);
    }
  }

  /** OR and AND of a value with itself give the value; XOR gives zero. */
  lemma {:induction false} BitsSelf(op: BitOp, a: nat, width: nat)
    requires a < Pow2(width)
    ensures op != Xor ==> Bits(op, a, a, width) == a
    ensures op == Xor ==> Bits(op, a, a, width) == 0
  {
    if width > 0 {
      BitsSelf(op, a / 2, width - 1);
    }
  }

  /** XOR with the same value twice gives back the first. */
  lemma {:induction false} BitsXorCancels(a: nat, b: nat, width: nat)
    requires a < Pow2(width)
    ensures Bits(Xor, Bits(Xor, a, b, width), b, width) == a
  {
    if width > 0 {
      var c := Bits(Xor, a, b, width);
      var rest := Bits(Xor, a / 2, b / 2, width - 1);
      assert c / 2 == rest && c % 2 == (if (a % 2 == 1) != (b % 2 == 1) then 1 else 0);
      BitsXorCancels(a / 2, b / 2, width - 1);
    }
  }

  /** AND with zero is zero. */
  lemma {:induction false} BitsAndZero(a: nat, width: nat)
    ensures Bits(And, a, 0, width) == 0
  {
    if width > 0 {
      BitsAndZero(a / 2, width - 1);
    }
  }

  /** AND with a single bit keeps just that bit of the other operand. */
  lemma {:induction false} BitsAndPower(a: nat, k: nat, width: nat)
    requires k < width
    ensures Bits(And, a, Pow2(k), width) == (a / Pow2(k)) % 2 * Pow2(k)
  {
    var p := Pow2(k);
    if k == 0 {
      assert p / 2 == 0 && p % 2 == 1;
      BitsAndZero(a / 2, width - 1);
    } else {
      var half := Pow2(k - 1);
      assert p / 2 == half && p % 2 == 0;
      BitsAndPower(a / 2, k - 1, width - 1);
      HalfThenDivide(a, half);
      assert (a / 2 / half) % 2 * half * 2 == (a / p) % 2 * p;
    }
  }

  lemma HalfThenDivide(a: nat, m: nat)
    requires m >= 1
    ensures a / 2 / m == a / (2 * m)
  {
    var q, r := a / 2, a % 2;
    var q2, r2 := q / m, q % m;
    assert a == 2 * m * q2 + (2 * r2 + r);
    assert 0 <= 2 * r2 + r < 2 * m;
    DivisionUnique(a, 2 * m, q2, 2 * r2 + r);
  }

  lemma DivisionUnique(a: int, d: int, q: int, r: int)
    requires d > 0 && 0 <= r < d && a == d * q + r
    ensures a / d == q && a % d == r
  {
    var k := a / d - q;
    assert d * k == r - a % d;
    if k >= 1 {
      ScaleAtLeast(d, k);
    } else if k <= -1 {
      ScaleAtLeast(d, -k);
    }
  }

  lemma ScaleAtLeast(d: int, k: int)
    requires d > 0 && k >= 1
    ensures d * k >= d
  {
  }

  lemma HalfThenRemainder(a: nat, m: nat)
    requires m >= 1
    ensures 2 * (a / 2 % m) + a % 2 == a % (2 * m)
  {
    var q, r := a / 2, a % 2;
    var q2, r2 := q / m, q % m;
    assert a == 2 * m * q2 + (2 * r2 + r);
    DivisionUnique(a, 2 * m, q2, 2 * r2 + r);
  }

  /** AND with a run of `j` ones keeps the low `j` bits. */
  lemma {:induction false} BitsAndLowMask(a: nat, j: nat, width: nat)
    requires j <= width
    ensures Bits(And, a, Pow2(j) - 1, width) == a % Pow2(j)
  {
    if j == 0 {
      BitsAndZero(a, width);
    } else {
      var half := Pow2(j - 1);
      LowMaskUnfold(a, half, width);
      BitsAndLowMask(a / 2, j - 1, width - 1);
      HalfThenRemainder(a, half);
    }
  }

  lemma LowMaskUnfold(a: nat, half: nat, width: nat)
    requires half >= 1 && width >= 1
    ensures Bits(And, a, 2 * half - 1, width) == 2 * Bits(And, a / 2, half - 1, width - 1) + a % 2
  {
    DivisionUnique(2 * half - 1, 2, half - 1, 1);
  }

  /**
   * AND with a run of `j` ones starting at bit `k` keeps those `j` bits in
   * place; shifting the result right by `k` leaves them as a number.
   */
  lemma {:induction false} BitsAndMask(a: nat, j: nat, k: nat, width: nat)
    requires j + k <= width
    ensures Bits(And, a, (Pow2(j) - 1) * Pow2(k), width) == a / Pow2(k) % Pow2(j) * Pow2(k)
  {
    if k == 0 {
      BitsAndLowMask(a, j, width);
    } else {
      var ones, p, half := Pow2(j) - 1, Pow2(k), Pow2(k - 1);
      var mask, rest := ones * p, ones * half;
      Twice(ones, half);
      DivisionUnique(mask, 2, rest, 0);
      assert Bits(And, a, mask, width) == 2 * Bits(And, a / 2, rest, width - 1);
      BitsAndMask(a / 2, j, k - 1, width - 1);
      HalfThenDivide(a, half);
      Twice(a / p % Pow2(j), half);
    }
  }

  lemma Twice(t: int, h: int)
    ensures t * (2 * h) == 2 * (t * h)
  {
  }

  /** `x & 0x1` is the parity of a byte. */
  lemma BitAndOne(a: u8)
    ensures BitAnd(a, 1) == a % 2
  {
    BitsAndPower(a, 0, 8);
  }

  /** `(x & 0x80) >> 7` is the top bit of a byte. */
  lemma BitAndTop(a: u8)
    ensures BitAnd(a, 0x80) / 0x80 == a / 0x80
  {
    Pow2Eight();
    BitsAndPower(a, 7, 8);
  }

  /** The byte operators keep to the laws above. */
  lemma ByteOperators(a: u8, b: u8)
    ensures a <= BitOr(a, b) && b <= BitOr(a, b) && BitOr(a, b) == BitOr(b, a)
    ensures BitAnd(a, b) <= a && BitAnd(a, b) <= b && BitAnd(a, b) == BitAnd(b, a)
    ensures BitXor(BitXor(a, b), b) == a && BitXor(a, a) == 0 && BitXor(a, b) == BitXor(b, a)
    ensures BitOr(a, a) == a && BitAnd(a, a) == a
  {
    Pow2Eight();
    BitsOrCovers(a, b, 8);
    BitsOrCovers(b, a, 8);
    BitsCommute(Or, a, b, 8);
    BitsAndWithin(a, b, 8);
    BitsAndWithin(b, a, 8);
    BitsCommute(And, a, b, 8);
    BitsXorCancels(a, b, 8);
    BitsCommute(Xor, a, b, 8);
    BitsSelf(Or, a, 8);
    BitsSelf(And, a, 8);
    BitsSelf(Xor, a, 8);
  }
}
