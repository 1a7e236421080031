/** UTF-8, section 3 of RFC 3629, with the strict decoder that `read_to_string` applies to a whole file. */
module Utf8 {
  import opened Wrappers
  import opened Bytes

  function Width(c: char): (w: nat)
    ensures 1 <= w <= 4
  {
    var n := c as int;
    if n < 0x80 then 1 else if n < 0x800 then 2 else if n < 0x10000 then 3 else 4
  }

  /** The low six bits of what is left, behind the mark of a continuation byte. */
  function Follow(n: nat): byte {
    0x80 + n % 64
  }

  function Encode(c: char): (b: bytes)
    ensures |b| == Width(c)
  {
    var n := c as int;
    if n < 0x80 then [n]
    else if n < 0x800 then [0xC0 + n / 64, Follow(n)]
    else if n < 0x10000 then [0xE0 + n / 64 / 64, Follow(n / 64), Follow(n)]
    else [0xF0 + n / 64 / 64 / 64, Follow(n / 64 / 64), Follow(n / 64), Follow(n)]
  }

  function EncodeAll(s: string): bytes {
    if s == [] then [] else Encode(s[0]) + EncodeAll(s[1..])
  }

  predicate Continues(b: byte) {
    0x80 <= b < 0xC0
  }

  /** A byte sequence that follows no unfinished character. */
  predicate Fresh(b: bytes) {
    b == [] || !Continues(b[0])
  }

  /** How many bytes the first one announces; none if it cannot start a character. */
  function Announced(lead: byte): nat {
    if lead < 0x80 then 1
    else if lead < 0xC0 then 0
    else if lead < 0xE0 then 2
    else if lead < 0xF0 then 3
    else if lead < 0xF8 then 4
    else 0
  }

  function Over(b: byte, mark: int): int {
    b as int - mark
  }

  /** The number a complete multi-byte character stands for. */
  function Value(b: bytes): int
    requires 2 <= |b| <= 4
  {
    if |b| == 2 then 64 * Over(b[0], 0xC0) + Over(b[1], 0x80)
    else if |b| == 3 then 4096 * Over(b[0], 0xE0) + 64 * Over(b[1], 0x80) + Over(b[2], 0x80)
    else 262144 * Over(b[0], 0xF0) + 4096 * Over(b[1], 0x80) + 64 * Over(b[2], 0x80) + Over(b[3], 0x80)
  }

  /** No longer than needed, no surrogate, not past the last character. */
  predicate Legal(n: int, width: nat) {
    || (width == 2 && 0x80 <= n < 0x800)
    || (width == 3 && 0x800 <= n < 0x10000 && !(0xD800 <= n < 0xE000))
    || (width == 4 && 0x10000 <= n < 0x110000)
  }

  /** The first character, if the bytes start with a well-formed one. */
  function First(b: bytes): Option<char>
    requires b != []
  {
    var w := Announced(b[0]);
    if w == 1 then Some(b[0] as char)
    else if w == 0 || |b| < w || (exists i | 1 <= i < w :: !Continues(b[i])) then None
    else
      var n := Value(b[..w]);
      if Legal(n, w) then Some(n as char) else None
  }

  function Decode(b: bytes): Option<string>
    decreases |b|
  {
    if b == [] then Some([])
    else
      var c := First(b);
      if c.None? then None
      else
        var rest := Decode(b[Announced(b[0])..]);
        if rest.None? then None else Some([c.value] + rest.value)
  }

  // ---- What was written reads back ----

  lemma ValueOf(c: char)
    requires Width(c) > 1
    ensures var b := Encode(c);
            (forall i | 1 <= i < |b| :: Continues(b[i])) && Announced(b[0]) == |b| && Value(b) == c as int
  {
    var n := c as int;
    Sixes(n);
    Sixes(n / 64);
    Sixes(n / 64 / 64);
  }

  lemma Sixes(n: nat)
    ensures n == 64 * (n / 64) + Over(Follow(n), 0x80) && Continues(Follow(n))
  {
  }

  lemma FirstIs(c: char, rest: bytes)
    ensures var b := Encode(c) + rest;
            First(b) == Some(c) && Announced(b[0]) == Width(c) && b[Width(c)..] == rest
  {
    var b := Encode(c) + rest;
    assert b[..Width(c)] == Encode(c);
    if Width(c) > 1 {
      ValueOf(c);
      assert forall i | 1 <= i < Width(c) :: b[i] == Encode(c)[i];
    }
  }

  lemma DecodeStep(c: char, rest: bytes)
    ensures Decode(Encode(c) + rest) == if Decode(rest).None? then None else Some([c] + Decode(rest).value)
  {
    hide First, Encode, Announced;
    FirstIs(c, rest);
  }

  /** Text before other bytes decodes first. */
  lemma {:induction false} DecodeAfter(s: string, rest: bytes)
    ensures Decode(EncodeAll(s) + rest) == if Decode(rest).None? then None else Some(s + Decode(rest).value)
    decreases |s|
  {
    hide Decode, Encode;
    if s == [] {
      assert EncodeAll(s) + rest == rest;
      if Decode(rest).Some? {
        assert [] + Decode(rest).value == Decode(rest).value;
      }
    } else {
      var tail := EncodeAll(s[1..]) + rest;
      assert EncodeAll(s) + rest == Encode(s[0]) + tail;
      DecodeStep(s[0], tail);
      DecodeAfter(s[1..], rest);
      if Decode(rest).Some? {
        assert [s[0]] + (s[1..] + Decode(rest).value) == s + Decode(rest).value;
      }
    }
  }

  lemma RoundTrip(s: string)
    ensures Decode(EncodeAll(s)) == Some(s)
  {
    DecodeAfter(s, []);
    assert EncodeAll(s) + [] == EncodeAll(s) && s + [] == s;
  }

  /** Part of a character, with nothing or another character behind it, spoils everything. */
  lemma PartSpoils(s: string, c: char, k: nat, rest: bytes)
    requires 0 < k < Width(c) && Fresh(rest)
    ensures Decode(EncodeAll(s) + (Encode(c)[..k] + rest)) == None
  {
    ValueOf(c);
    var b := Encode(c)[..k] + rest;
    assert b[0] == Encode(c)[0];
    if |b| >= Width(c) {
      assert b[k] == rest[0] && !Continues(b[k]);
    }
    assert First(b) == None;
    DecodeAfter(s, b);
  }

  lemma {:induction false} EncodeJoin(a: string, b: string)
    ensures EncodeAll(a + b) == EncodeAll(a) + EncodeAll(b)
    decreases |a|
  {
    if a == [] {
      assert a + b == b;
    } else {
      EncodeJoin(a[1..], b);
      assert (a + b)[1..] == a[1..] + b && (a + b)[0] == a[0];
      assert Encode(a[0]) + (EncodeAll(a[1..]) + EncodeAll(b)) == EncodeAll(a) + EncodeAll(b);
    }
  }

  lemma StartsFresh(c: char, k: nat, rest: bytes)
    requires 0 < k <= Width(c)
    ensures Fresh(Encode(c)[..k] + rest)
  {
  }

  /** Characters of two, three and four bytes, as anyone can look them up. */
  lemma KnownEncodings()
    ensures Encode('\U{41}') == [0x41] && Encode('\U{e9}') == [0xc3, 0xa9]
    ensures Encode('\U{20ac}') == [0xe2, 0x82, 0xac] && Encode('\U{1f600}') == [0xf0, 0x9f, 0x98, 0x80]
  {
  }
}
