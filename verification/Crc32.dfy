/** The bitwise CRC-32 of the gzip trailer, and the table-driven algorithm of
    section 8 of RFC 1952 it must agree with. */
module Crc32 {
  import opened Bytes
  import opened Register

  function Odd(c: bv32): bool {
    c & 1 == 1
  }

  function Half(c: bv32): bv32 {
    c >> 1
  }

  function Xor(a: bv32, b: bv32): bv32 {
    a ^ b
  }

  function Up(c: bv32): bv32 {
    c << 8
  }

  /** One round of the inner loop: a shift, and the polynomial when a 1 fell out. */
  const SHIFT: bv32 -> bv32 := Feedback(Odd, Half, Xor, 0xedb8_8320)

  lemma ShiftIs(c: bv32)
    ensures SHIFT(c) == if c & 1 == 1 then (c >> 1) ^ 0xedb8_8320 else c >> 1
  {
    assert SHIFT(c) == if Odd(c) then Xor(Half(c), 0xedb8_8320) else Half(c);
  }

  /** The register after feeding `data`, byte by byte, into `c`. */
  function Feed(c: bv32, data: bytes): bv32 {
    Fold(Feeding(SHIFT, Xor, Word), c, data)
  }

  /** The source's branch-free form of a round. */
  lemma BranchFree(c: bv32)
    ensures (c >> 1) ^ (0xedb8_8320 & (0 - (c & 1))) == if c & 1 == 1 then (c >> 1) ^ 0xedb8_8320 else c >> 1
  {
    assert c & 1 == 0 || c & 1 == 1;
  }

  method EightRounds(start: bv32) returns (crc: bv32)
    ensures crc == Iterate(SHIFT, start, 8)
  {
    crc := start;
    for k := 0 to 8
      invariant Iterate(SHIFT, crc, 8 - k) == Iterate(SHIFT, start, 8)
    {
      BranchFree(crc);
      ShiftIs(crc);
      crc := (crc >> 1) ^ (0xedb8_8320 & (0 - (crc & 1)));
    }
  }

  method FeedAll(start: bv32, data: bytes) returns (crc: bv32)
    ensures crc == Feed(start, data)
  {
    crc := start;
    for i := 0 to |data|
      invariant Feed(crc, data[i..]) == Feed(start, data)
    {
      FoldStep(Feeding(SHIFT, Xor, Word), crc, data, i);
      hide Word, Value;
      WordIs(data[i]);
      crc := EightRounds(Xor(crc, Value(data[i])));
    }
  }

  method Compute(data: bytes) returns (r: bv32)
    ensures r == Rfc1952Crc(data)
  {
    var crc := FeedAll(0xffff_ffff, data);
    FeedMatchesTable(0xffff_ffff, data);
    r := crc ^ 0xffff_ffff;
  }

  // ---- The reference: section 8 of RFC 1952 ----

  function TableRound(c: bv32): bv32 {
    if c & 1 == 1 then 0xedb8_8320 ^ (c >> 1) else c >> 1
  }

  /** Entry `n` of make_crc_table. */
  function Table(n: bv32): bv32 {
    Iterate(TableRound, n, 8)
  }

  function UpdateStep(c: bv32, b: byte): bv32 {
    Xor(Table(Xor(c, Value(b)) & 255), c >> 8)
  }

  /** update_crc(0, data): pre- and post-conditioned with all ones. */
  function Rfc1952Crc(data: bytes): bv32 {
    Fold(UpdateStep, 0xffff_ffff, data) ^ 0xffff_ffff
  }

  lemma RoundsFrom(c: bv32, n: nat)
    requires n > 0
    ensures Iterate(TableRound, c, n) == Iterate(TableRound, TableRound(c), n - 1)
  {
  }

  /** A value anyone can look up: the checksum of the letter a. */
  lemma KnownAnswer()
    ensures Rfc1952Crc([0x61]) == 0xe8b7_be43 && Rfc1952Crc([]) == 0
  {
    KnownEntry();
    KnownWord();
    var start: bytes := [0x61];
    assert start[1..] == [];
    assert UpdateStep(0xffff_ffff, 0x61) == 0x17b7_be43 ^ 0x00ff_ffff;
    assert Fold(UpdateStep, 0xffff_ffff, start) == UpdateStep(0xffff_ffff, 0x61);
  }

  lemma KnownWord()
    ensures (0xffff_ffff ^ Value(0x61)) & 255 == 0x9e
  {
    assert Value(0x61) == 0x61;
  }

  lemma KnownEntry()
    ensures Table(0x9e) == 0x17b7_be43
  {
    assert TableRound(0x9e) == 0x4f;
    assert TableRound(0x4f) == 0xedb8_8307;
    assert TableRound(0xedb8_8307) == 0x9b64_c2a3;
    assert TableRound(0x9b64_c2a3) == 0xa00a_e271;
    assert TableRound(0xa00a_e271) == 0xbdbd_f218;
    assert TableRound(0xbdbd_f218) == 0x5ede_f90c;
    assert TableRound(0x5ede_f90c) == 0x2f6f_7c86;
    assert TableRound(0x2f6f_7c86) == 0x17b7_be43;
    RoundsFrom(0x9e, 8);
    RoundsFrom(0x4f, 7);
    RoundsFrom(0xedb8_8307, 6);
    RoundsFrom(0x9b64_c2a3, 5);
    RoundsFrom(0xa00a_e271, 4);
    RoundsFrom(0xbdbd_f218, 3);
    RoundsFrom(0x5ede_f90c, 2);
    RoundsFrom(0x2f6f_7c86, 1);
  }

  // ---- The laws of the register ----

  lemma XorFacts(a: bv32, b: bv32, c: bv32)
    ensures (a ^ b) ^ c == a ^ (b ^ c)
    ensures a ^ b == b ^ a
    ensures (a ^ b) ^ b == a
  {
  }

  lemma HalfFacts(a: bv32, b: bv32)
    ensures (a ^ b) >> 1 == (a >> 1) ^ (b >> 1)
    ensures ((a ^ b) & 1 == 1) == ((a & 1 == 1) != (b & 1 == 1))
  {
  }

  lemma LowBitAndHalf(a: bv32, b: bv32)
    requires (a & 1 == 1) == (b & 1 == 1) && a >> 1 == b >> 1
    ensures a == b
  {
  }

  lemma TopBit(a: bv32, b: bv32)
    ensures (a >> 1) ^ 0xedb8_8320 != b >> 1
  {
    assert (a >> 1) & 0x8000_0000 == 0 && (b >> 1) & 0x8000_0000 == 0;
  }

  lemma XorAssociative()
    ensures Associative(Xor)
  {
    forall a, b, c ensures Xor(Xor(a, b), c) == Xor(a, Xor(b, c)) {
      XorFacts(a, b, c);
    }
  }

  lemma XorCommutative()
    ensures Commutative(Xor)
  {
  }

  lemma XorUndone()
    ensures SelfUndoing(Xor)
  {
    forall a, b ensures Xor(Xor(a, b), b) == a {
      XorFacts(a, b, 0);
    }
  }

  lemma XorHalves()
    ensures HalvesThrough(Half, Xor)
  {
    forall a, b ensures Half(Xor(a, b)) == Xor(Half(a), Half(b)) {
      HalfFacts(a, b);
    }
  }

  lemma XorParity()
    ensures ParityThrough(Odd, Xor)
  {
    forall a, b ensures Odd(Xor(a, b)) == (Odd(a) != Odd(b)) {
      HalfFacts(a, b);
    }
  }

  lemma XorIsBitwise()
    ensures Bitwise(Odd, Half, Xor)
  {
    XorAssociative();
    XorCommutative();
    XorUndone();
    XorHalves();
    XorParity();
  }

  lemma CrcLinear()
    ensures Linear(SHIFT, Xor)
  {
    XorIsBitwise();
    FeedbackLinear(Odd, Half, Xor, 0xedb8_8320);
  }

  lemma CrcLossless()
    ensures Lossless(SHIFT, Xor)
  {
    XorIsBitwise();
    forall a, b | Odd(a) == Odd(b) && Half(a) == Half(b) ensures a == b {
      LowBitAndHalf(a, b);
    }
    forall a, b ensures Xor(Half(a), 0xedb8_8320) != Half(b) {
      TopBit(a, b);
    }
    FeedbackLossless(Odd, Half, Xor, 0xedb8_8320);
  }

  lemma OneRound(c: bv32)
    requires c & 1 == 0
    ensures Iterate(SHIFT, c, 1) == c >> 1
  {
    ShiftIs(c);
    assert Iterate(SHIFT, SHIFT(c), 0) == SHIFT(c);
  }

  lemma Bits2(c: bv32)
    requires c & 3 == 0
    ensures c & 1 == 0 && (c >> 1) & 1 == 0 && (c >> 1) >> 1 == c >> 2
  {
  }

  lemma Bits4(c: bv32)
    requires c & 15 == 0
    ensures c & 3 == 0 && (c >> 2) & 3 == 0 && (c >> 2) >> 2 == c >> 4
  {
  }

  lemma Bits8(c: bv32)
    requires c & 255 == 0
    ensures c & 15 == 0 && (c >> 4) & 15 == 0 && (c >> 4) >> 4 == c >> 8
  {
  }

  lemma TwoRounds(c: bv32)
    requires c & 3 == 0
    ensures Iterate(SHIFT, c, 2) == c >> 2
  {
    Bits2(c);
    OneRound(c);
    OneRound(c >> 1);
    IterateAdd(SHIFT, c, 1, 1);
  }

  lemma FourRounds(c: bv32)
    requires c & 15 == 0
    ensures Iterate(SHIFT, c, 4) == c >> 4
  {
    Bits4(c);
    TwoRounds(c);
    TwoRounds(c >> 2);
    IterateAdd(SHIFT, c, 2, 2);
  }

  /** A word whose low byte is clear just moves down a byte in eight rounds. */
  lemma ClearLowByte(c: bv32)
    requires c & 255 == 0
    ensures Iterate(SHIFT, c, 8) == c >> 8
  {
    Bits8(c);
    FourRounds(c);
    FourRounds(c >> 4);
    IterateAdd(SHIFT, c, 4, 4);
  }

  // ---- Refinement ----

  lemma LowHigh(v: bv32)
    ensures (v & 255) ^ (v & 0xffff_ff00) == v
    ensures (v & 0xffff_ff00) & 255 == 0
    ensures (v & 0xffff_ff00) >> 8 == v >> 8
  {
  }

  lemma HighUntouched(c: bv32, w: bv32)
    requires w & 0xffff_ff00 == 0
    ensures (c ^ w) >> 8 == c >> 8
  {
  }

  lemma SplitRounds(v: bv32, low: bv32, high: bv32)
    requires v == Xor(low, high)
    ensures Iterate(SHIFT, v, 8) == Xor(Iterate(SHIFT, low, 8), Iterate(SHIFT, high, 8))
  {
    CrcLinear();
    IterateLinear(SHIFT, Xor, low, high, 8);
  }

  lemma RoundsAgree(c: bv32)
    ensures SHIFT(c) == TableRound(c)
  {
    ShiftIs(c);
    XorFacts(c >> 1, 0xedb8_8320, 0);
  }

  lemma TableIsRounds(n: bv32)
    ensures Table(n) == Iterate(SHIFT, n, 8)
  {
    forall c ensures SHIFT(c) == TableRound(c) {
      RoundsAgree(c);
    }
    IterateAgree(SHIFT, TableRound, n, 8);
  }

  lemma ByTable(v: bv32, high: bv32)
    requires high == v >> 8
    ensures Iterate(SHIFT, v, 8) == Xor(Table(v & 255), high)
  {
    LowHigh(v);
    SplitRounds(v, v & 255, v & 0xffff_ff00);
    ClearLowByte(v & 0xffff_ff00);
    TableIsRounds(v & 255);
  }

  lemma StepByTable(c: bv32, w: bv32)
    requires (c ^ w) >> 8 == c >> 8
    ensures Iterate(SHIFT, Xor(c, w), 8) == Xor(Table(Xor(c, w) & 255), c >> 8)
  {
    ByTable(Xor(c, w), c >> 8);
  }

  lemma WordHigh(c: bv32, b: byte)
    ensures (c ^ Word(b)) >> 8 == c >> 8
  {
    WordIsLow(b);
    HighUntouched(c, Word(b));
  }

  lemma StepIsUpdate(c: bv32, b: byte)
    ensures Iterate(SHIFT, Xor(c, Word(b)), 8) == UpdateStep(c, b)
  {
    hide Word, Value;
    WordHigh(c, b);
    StepByTable(c, Word(b));
    WordIs(b);
  }

  /** The branch-free bitwise loop computes what the table-driven loop computes. */
  lemma FeedMatchesTable(c: bv32, data: bytes)
    ensures Feed(c, data) == Fold(UpdateStep, c, data)
  {
    var g := Feeding(SHIFT, Xor, Word);
    forall r, b ensures g(r, b) == UpdateStep(r, b) {
      StepIsUpdate(r, b);
    }
    FoldAgree(g, UpdateStep, c, data);
  }

  // ---- Error detection ----

  lemma BurstFacts(b0: bv32, b1: bv32, b2: bv32, b3: bv32)
    requires b0 & 0xffff_ff00 == 0 && b1 & 0xffff_ff00 == 0
    requires b2 & 0xffff_ff00 == 0 && b3 & 0xffff_ff00 == 0
    ensures var m := b0 ^ ((b1 ^ ((b2 ^ (b3 << 8)) << 8)) << 8);
            m & 255 == b0 && (m >> 8) & 255 == b1 && (m >> 16) & 255 == b2 && m >> 24 == b3
  {
  }

  lemma HighClear(b1: bv32, b2: bv32, b3: bv32)
    requires b1 & 0xffff_ff00 == 0 && b2 & 0xffff_ff00 == 0 && b3 & 0xffff_ff00 == 0
    ensures b3 & 0xff00_0000 == 0
    ensures (b2 ^ (b3 << 8)) & 0xff00_0000 == 0
    ensures (b1 ^ ((b2 ^ (b3 << 8)) << 8)) & 0xff00_0000 == 0
  {
  }

  lemma ShiftBack(m: bv32)
    requires m & 0xff00_0000 == 0
    ensures (m << 8) & 255 == 0 && (m << 8) >> 8 == m
  {
  }

  lemma WordRises(m: bv32)
    requires m & 0xff00_0000 == 0
    ensures Rises(SHIFT, Up, m)
  {
    ShiftBack(m);
    ClearLowByte(m << 8);
  }

  lemma WordsAreLow(d: bytes)
    ensures forall i | 0 <= i < |d| :: Word(d[i]) & 0xffff_ff00 == 0
  {
    forall i | 0 <= i < |d| ensures Word(d[i]) & 0xffff_ff00 == 0 {
      WordIsLow(d[i]);
    }
  }

  lemma BytesRise(d: bytes)
    requires |d| == 4
    ensures BurstRises(SHIFT, Xor, Word, Up, d)
  {
    WordsAreLow(d);
    var b1, b2, b3 := Word(d[1]), Word(d[2]), Word(d[3]);
    HighClear(b1, b2, b3);
    var m2 := Xor(b2, Up(b3));
    var m1 := Xor(b1, Up(m2));
    WordRises(b3);
    WordRises(m2);
    WordRises(m1);
  }

  lemma BurstWords(d: bytes)
    requires |d| == 4
    ensures var m := Burst(Xor, Word, Up, d);
            m & 255 == Word(d[0]) && (m >> 8) & 255 == Word(d[1])
            && (m >> 16) & 255 == Word(d[2]) && m >> 24 == Word(d[3])
  {
    WordsAreLow(d);
    BurstFacts(Word(d[0]), Word(d[1]), Word(d[2]), Word(d[3]));
  }

  lemma BurstInjective(u: bytes, v: bytes)
    requires |u| == |v| == 4 && Burst(Xor, Word, Up, u) == Burst(Xor, Word, Up, v)
    ensures u == v
  {
    BurstWords(u);
    BurstWords(v);
    forall i | 0 <= i < 4 ensures u[i] == v[i] {
      WordInjective(u[i], v[i]);
    }
  }

  lemma SameRegister(d: bytes, e: bytes)
    requires Rfc1952Crc(d) == Rfc1952Crc(e)
    ensures Feed(0xffff_ffff, d) == Feed(0xffff_ffff, e)
  {
    FeedMatchesTable(0xffff_ffff, d);
    FeedMatchesTable(0xffff_ffff, e);
    XorFacts(Feed(0xffff_ffff, d), 0xffff_ffff, 0);
    XorFacts(Feed(0xffff_ffff, e), 0xffff_ffff, 0);
  }

  /** Any corruption confined to four consecutive bytes changes the checksum. */
  lemma BurstDetected(before: bytes, u: bytes, v: bytes, after: bytes)
    requires |u| == |v| == 4 && u != v
    ensures Rfc1952Crc(before + u + after) != Rfc1952Crc(before + v + after)
  {
    if Rfc1952Crc(before + u + after) == Rfc1952Crc(before + v + after) {
      SameRegister(before + u + after, before + v + after);
      CrcLinear();
      CrcLossless();
      BytesRise(u);
      BytesRise(v);
      FourCollapse(SHIFT, Xor, Word, Up, 0xffff_ffff, before, u, v, after);
      BurstInjective(u, v);
    }
  }

  /** Two inputs of one length that differ in exactly one byte have different checksums. */
  lemma OneByteDetected(before: bytes, a: byte, b: byte, after: bytes)
    requires a != b
    ensures Rfc1952Crc(before + [a] + after) != Rfc1952Crc(before + [b] + after)
  {
    if Rfc1952Crc(before + [a] + after) == Rfc1952Crc(before + [b] + after) {
      SameRegister(before + [a] + after, before + [b] + after);
      CrcLossless();
      OneCollapse(SHIFT, Xor, Word, 0xffff_ffff, before, a, b, after);
      WordInjective(a, b);
    }
  }
}
