/** The zero-padded octal numbers of tar headers, and their reader. */
module Octal {
  import opened Bytes
  import opened Wrappers

  function Digits(n: nat): (s: bytes)
    ensures |s| >= 1
  {
    if n < 8 then [48 + n] else Digits(n / 8) + [48 + n % 8]
  }

  function Padding(k: nat): (s: bytes)
    ensures |s| == k
  {
    if k == 0 then [] else [48] + Padding(k - 1)
  }

  /** `n` in octal, padded with zeros to at least `width` digits. */
  function Padded(n: nat, width: nat): bytes {
    var s := Digits(n);
    if |s| < width then Padding(width - |s|) + s else s
  }

  function Pow8(k: nat): (p: nat)
    ensures p >= 1
  {
    if k == 0 then 1 else 8 * Pow8(k - 1)
  }

  lemma Powers()
    ensures Pow8(6) == 0x4_0000 && Pow8(7) == 0x20_0000 && Pow8(11) == 0x2_0000_0000
    ensures Pow8(22) == 0x4_0000_0000_0000_0000
  {
    assert Pow8(3) == 512;
    assert Pow8(6) == 0x4_0000;
    assert Pow8(9) == 0x800_0000;
    assert Pow8(12) == 0x10_0000_0000;
    assert Pow8(15) == 0x2000_0000_0000;
    assert Pow8(18) == 0x40_0000_0000_0000;
    assert Pow8(21) == 0x8000_0000_0000_0000;
  }

  /** `n` has at most `k` octal digits exactly when it is below 8^k. */
  lemma {:induction false} DigitsLength(n: nat, k: nat)
    requires k >= 1
    ensures |Digits(n)| <= k <==> n < Pow8(k)
    decreases n
  {
    if n < 8 {
      assert Pow8(k) == 8 * Pow8(k - 1);
    } else if k == 1 {
      assert Pow8(1) == 8 * Pow8(0);
    } else {
      DigitsLength(n / 8, k - 1);
      assert Pow8(k) == 8 * Pow8(k - 1);
    }
  }

  lemma PaddedLength(n: nat, k: nat)
    requires k >= 1
    ensures |Padded(n, k)| >= k
    ensures |Padded(n, k)| == k <==> n < Pow8(k)
  {
    DigitsLength(n, k);
  }

  /** A numeric field: octal digits ended by a NUL or a space inside the field. */
  function ParseOctal(f: bytes, acc: nat): Option<nat>
    decreases |f|
  {
    if f == [] then None
    else if f[0] == 0 || f[0] == 32 then Some(acc)
    else if 48 <= f[0] < 56 then ParseOctal(f[1..], acc * 8 + (f[0] - 48))
    else None
  }

  lemma {:induction false} ParsePadding(k: nat, rest: bytes)
    ensures ParseOctal(Padding(k) + rest, 0) == ParseOctal(rest, 0)
  {
    if k == 0 {
      assert Padding(k) + rest == rest;
    } else {
      ParsePadding(k - 1, rest);
      assert (Padding(k) + rest)[1..] == Padding(k - 1) + rest;
    }
  }

  lemma {:induction false} ParseDigits(n: nat, rest: bytes)
    ensures ParseOctal(Digits(n) + rest, 0) == ParseOctal(rest, n)
    decreases n
  {
    if n < 8 {
      assert (Digits(n) + rest)[1..] == rest;
    } else {
      var d: byte := 48 + n % 8;
      ParseDigits(n / 8, [d] + rest);
      assert Digits(n) + rest == Digits(n / 8) + ([d] + rest);
      assert ([d] + rest)[1..] == rest;
    }
  }

  lemma ParsePadded(n: nat, width: nat, rest: bytes)
    ensures ParseOctal(Padded(n, width) + rest, 0) == ParseOctal(rest, n)
  {
    var s := Digits(n);
    ParseDigits(n, rest);
    if |s| < width {
      ParsePadding(width - |s|, s + rest);
      Regroup(Padding(width - |s|), s, rest);
    }
  }

  lemma {:induction false} DigitsAreDigits(n: nat)
    ensures forall i | 0 <= i < |Digits(n)| :: 48 <= Digits(n)[i] < 56
    decreases n
  {
    if n >= 8 {
      DigitsAreDigits(n / 8);
    }
  }

  /** A field with no terminator in it does not parse. */
  lemma {:induction false} Unterminated(f: bytes, acc: nat)
    requires forall i | 0 <= i < |f| :: f[i] != 0 && f[i] != 32
    ensures ParseOctal(f, acc) == None
    decreases |f|
  {
    if f != [] && 48 <= f[0] < 56 {
      Unterminated(f[1..], acc * 8 + (f[0] - 48));
    }
  }

  /** The mode of a file, most significant digit first. */
  lemma KnownDigits()
    ensures Padded(0x1a4, 7) == [48, 48, 48, 48, 54, 52, 52] && Padded(0, 7) == [48, 48, 48, 48, 48, 48, 48]
  {
    assert Digits(6) == [54] && Digits(52) == Digits(6) + [52] && Digits(0x1a4) == Digits(52) + [52];
    assert Padding(4) == [48] + Padding(3) && Padding(3) == [48, 48, 48];
    assert Padding(6) == [48] + ([48] + Padding(4));
  }
}
