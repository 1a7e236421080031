/** Bytes and byte strings, as the archive writer and the frontmatter scanner see them. */
module Bytes {
  type byte = x: int | 0 <= x < 256

  type bytes = seq<byte>

  // ---- Bytes as words ----

  function Bit(on: bool, w: bv32): bv32 {
    if on then w else 0
  }

  function OfBits(b0: bool, b1: bool, b2: bool, b3: bool, b4: bool, b5: bool, b6: bool, b7: bool): bv32 {
    Bit(b0, 1) | Bit(b1, 2) | Bit(b2, 4) | Bit(b3, 8) | Bit(b4, 16) | Bit(b5, 32) | Bit(b6, 64) | Bit(b7, 128)
  }

  predicate IsOdd(n: int) {
    n % 2 == 1
  }

  function HalfOf(n: nat): nat {
    n / 2
  }

  /** The 32-bit word with a byte's binary digits. */
  function Word(b: byte): bv32 {
    var b1 := HalfOf(b);
    var b2 := HalfOf(b1);
    var b3 := HalfOf(b2);
    var b4 := HalfOf(b3);
    var b5 := HalfOf(b4);
    var b6 := HalfOf(b5);
    OfBits(IsOdd(b), IsOdd(b1), IsOdd(b2), IsOdd(b3), IsOdd(b4), IsOdd(b5), IsOdd(b6), IsOdd(HalfOf(b6)))
  }

  lemma BitsAreLow(b0: bool, b1: bool, b2: bool, b3: bool, b4: bool, b5: bool, b6: bool, b7: bool)
    ensures OfBits(b0, b1, b2, b3, b4, b5, b6, b7) & 0xffff_ff00 == 0
  {
  }

  lemma WordIsLow(b: byte)
    ensures Word(b) & 0xffff_ff00 == 0
  {
    hide OfBits, IsOdd, HalfOf;
    var b1 := HalfOf(b);
    var b2 := HalfOf(b1);
    var b3 := HalfOf(b2);
    var b4 := HalfOf(b3);
    var b5 := HalfOf(b4);
    var b6 := HalfOf(b5);
    BitsAreLow(IsOdd(b), IsOdd(b1), IsOdd(b2), IsOdd(b3), IsOdd(b4), IsOdd(b5), IsOdd(b6), IsOdd(HalfOf(b6)));
  }

  function Number(w: bv32): nat {
    w as int
  }

  function Digit(on: bool): nat {
    if on then 1 else 0
  }

  function DigitSum(b0: bool, b1: bool, b2: bool, b3: bool, b4: bool, b5: bool, b6: bool, b7: bool): nat {
    Digit(b0) + 2 * Digit(b1) + 4 * Digit(b2) + 8 * Digit(b3) + 16 * Digit(b4) + 32 * Digit(b5) + 64 * Digit(b6) + 128 * Digit(b7)
  }

  lemma BitsValue(b0: bool, b1: bool, b2: bool, b3: bool, b4: bool, b5: bool, b6: bool, b7: bool)
    ensures Number(OfBits(b0, b1, b2, b3, b4, b5, b6, b7)) == DigitSum(b0, b1, b2, b3, b4, b5, b6, b7)
  {
  }

  lemma Halves(n: nat)
    ensures n == 2 * HalfOf(n) + Digit(IsOdd(n))
  {
  }

  lemma TwoHalves(n: nat)
    ensures n == 4 * HalfOf(HalfOf(n)) + 2 * Digit(IsOdd(HalfOf(n))) + Digit(IsOdd(n))
  {
    hide IsOdd, Digit, HalfOf;
    Halves(n);
    Halves(HalfOf(n));
  }

  lemma FourHalves(n: nat)
    ensures n == 16 * HalfOf(HalfOf(HalfOf(HalfOf(n)))) + 8 * Digit(IsOdd(HalfOf(HalfOf(HalfOf(n))))) +
                 4 * Digit(IsOdd(HalfOf(HalfOf(n)))) + 2 * Digit(IsOdd(HalfOf(n))) + Digit(IsOdd(n))
  {
    hide IsOdd, Digit, HalfOf;
    TwoHalves(n);
    TwoHalves(HalfOf(HalfOf(n)));
  }

  lemma WordValue(b: byte)
    ensures Number(Word(b)) == b
  {
    hide OfBits, IsOdd, DigitSum, HalfOf, Number;
    var b1 := HalfOf(b);
    var b2 := HalfOf(b1);
    var b3 := HalfOf(b2);
    var b4 := HalfOf(b3);
    var b5 := HalfOf(b4);
    var b6 := HalfOf(b5);
    BitsValue(IsOdd(b), IsOdd(b1), IsOdd(b2), IsOdd(b3), IsOdd(b4), IsOdd(b5), IsOdd(b6), IsOdd(HalfOf(b6)));
    DigitsOf(b);
  }

  lemma DigitsOf(b: byte)
    ensures var b1 := HalfOf(b);
            var b2 := HalfOf(b1);
            var b3 := HalfOf(b2);
            var b4 := HalfOf(b3);
            var b5 := HalfOf(b4);
            var b6 := HalfOf(b5);
            b == DigitSum(IsOdd(b), IsOdd(b1), IsOdd(b2), IsOdd(b3), IsOdd(b4), IsOdd(b5), IsOdd(b6), IsOdd(HalfOf(b6)))
  {
    hide IsOdd, Digit, HalfOf;
    var high := HalfOf(HalfOf(HalfOf(HalfOf(b))));
    FourHalves(b);
    FourHalves(high);
    NothingLeft(b);
  }

  lemma NothingLeft(b: byte)
    ensures HalfOf(HalfOf(HalfOf(HalfOf(HalfOf(HalfOf(HalfOf(HalfOf(b)))))))) == 0
  {
    var b4 := HalfOf(HalfOf(HalfOf(HalfOf(b))));
    assert b4 < 16;
  }

  lemma BackAgain(w: bv32)
    ensures (w as int) as bv32 == w
  {
  }

  /** A byte's own value as a word. */
  function Value(b: byte): bv32 {
    b as bv32
  }

  /** Its digits give the same word. */
  lemma WordIs(b: byte)
    ensures Word(b) == Value(b)
  {
    hide Word;
    WordValue(b);
    BackAgain(Word(b));
  }

  lemma WordInjective(a: byte, b: byte)
    requires Word(a) == Word(b)
    ensures a == b
  {
    WordValue(a);
    WordValue(b);
  }

  lemma Regroup(a: bytes, b: bytes, c: bytes)
    ensures a + b + c == a + (b + c)
  {
  }

  function Zeros(n: nat): (z: bytes)
    ensures |z| == n && forall i | 0 <= i < n :: z[i] == 0
  {
    seq(n, _ => 0)
  }
}
