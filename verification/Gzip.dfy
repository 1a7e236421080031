/** The stored-block gzip writer, and a reader of section 2.3 of RFC 1952 with the
    stored blocks of section 3.2.4 of RFC 1951. */
module Gzip {
  import opened Bytes
  import opened Wrappers
  import Crc32

  const MAX: nat := 0xffff

  const MEMBER_HEADER: bytes := [0x1f, 0x8b, 8, 0, 0, 0, 0, 0, 0, 0xff]

  function Le16(n: int): bytes
    requires 0 <= n <= 0xffff
  {
    [n % 256, n / 256]
  }

  function Le32(n: int): bytes
    requires 0 <= n < 0x1_0000_0000
  {
    [n % 256, n / 256 % 256, n / 256 / 256 % 256, n / 256 / 256 / 256]
  }

  function Checksum(data: bytes): (c: int)
    ensures 0 <= c < 0x1_0000_0000
  {
    Crc32.Rfc1952Crc(data) as int
  }

  method AppendBlock(start: bytes, chunk: bytes, last: bool) returns (out: bytes)
    requires |chunk| <= MAX
    ensures out == start + Block(last, chunk)
  {
    out := start + [if last then 1 else 0];
    out := out + Le16(|chunk|);
    out := out + Le16(0xffff - |chunk|);
    out := out + chunk;
  }

  method Compress(data: bytes) returns (out: bytes)
    ensures out == Compressed(data)
  {
    out := [0x1f, 0x8b, 8, 0, 0, 0, 0, 0, 0, 0xff];
    var at := 0;
    while at < |data|
      invariant 0 <= at <= |data|
      invariant out + Blocks(data[at..]) == MEMBER_HEADER + Blocks(data)
    {
      var len := if |data| - at < MAX then |data| - at else MAX;
      FirstBlock(data, at, len);
      Regroup(out, Block(at + len == |data|, data[at..at + len]), Blocks(data[at + len..]));
      out := AppendBlock(out, data[at..at + len], at + len == |data|);
      at := at + len;
    }
    assert data[at..] == [];
    assert out == MEMBER_HEADER + Blocks(data);
    out := AppendTrailer(out, data);
  }

  method AppendTrailer(start: bytes, data: bytes) returns (out: bytes)
    ensures out == start + Le32(Checksum(data)) + Le32(|data| % 0x1_0000_0000)
  {
    var crc := Crc32.Compute(data);
    out := start + Le32(crc as int);
    out := out + Le32(|data| % 0x1_0000_0000);
  }

  /** One stored block: BFINAL with BTYPE 00, LEN, its complement, the bytes. */
  function Block(last: bool, chunk: bytes): bytes
    requires |chunk| <= MAX
  {
    [if last then 1 else 0] + Le16(|chunk|) + Le16(0xffff - |chunk|) + chunk
  }

  function Blocks(data: bytes): bytes {
    if data == [] then []
    else if |data| <= MAX then Block(true, data)
    else Block(false, data[..MAX]) + Blocks(data[MAX..])
  }

  lemma FinalBlock(data: bytes)
    requires data != [] && |data| <= MAX
    ensures Blocks(data) == Block(true, data)
  {
  }

  lemma FullBlock(data: bytes)
    requires |data| > MAX
    ensures Blocks(data) == Block(false, data[..MAX]) + Blocks(data[MAX..])
  {
  }

  /** What one turn of the writer's loop takes off the front of the data still to be written. */
  lemma FirstBlock(data: bytes, at: nat, len: nat)
    requires at < |data| && len == if |data| - at < MAX then |data| - at else MAX
    ensures Blocks(data[at..]) == Block(at + len == |data|, data[at..at + len]) + Blocks(data[at + len..])
  {
    if at + len == |data| {
      FinalBlock(data[at..]);
      assert data[at..at + len] == data[at..];
    } else {
      FullBlock(data[at..]);
      assert data[at..][..len] == data[at..at + len] && data[at..][len..] == data[at + len..];
    }
  }

  function Compressed(data: bytes): bytes {
    MEMBER_HEADER + Blocks(data) + Le32(Checksum(data)) + Le32(|data| % 0x1_0000_0000)
  }

  // ---- The reader ----

  function Word16(z: bytes): int
    requires |z| == 2
  {
    (z[0] as int) + 256 * (z[1] as int)
  }

  function Word32(z: bytes): int
    requires |z| == 4
  {
    (z[0] as int) + 256 * (z[1] as int) + 65536 * (z[2] as int) + 16777216 * (z[3] as int)
  }

  /** Reads stored blocks up to and including the final one; returns their bytes and what follows. */
  function Inflate(z: bytes): Option<(bytes, bytes)> {
    if |z| < 5 || z[0] / 2 % 4 != 0 then None
    else
      var len, nlen := Word16(z[1..3]), Word16(z[3..5]);
      if len + nlen != 0xffff || |z| < 5 + len then None
      else if z[0] % 2 == 1 then Some((z[5..5 + len], z[5 + len..]))
      else
        match Inflate(z[5 + len..])
        case None => None
        case Some((out, rest)) => Some((z[5..5 + len] + out, rest))
  }


  /** A whole member: magic, method 8, no flags, blocks, CRC32, ISIZE, and nothing more. */
  function Gunzip(z: bytes): Option<bytes> {
    if |z| < 10 || z[..4] != [0x1f, 0x8b, 8, 0] then None
    else
      match Inflate(z[10..])
      case None => None
      case Some((out, trailer)) =>
        if |trailer| == 8 && Word32(trailer[..4]) == Checksum(out)
           && Word32(trailer[4..]) == |out| % 0x1_0000_0000
        then Some(out) else None
  }

  // ---- Round trip ----

  lemma Le32Reads(n: int)
    requires 0 <= n < 0x1_0000_0000
    ensures Word32(Le32(n)) == n
  {
    var a, b, c := n / 256, n / 256 / 256, n / 256 / 256 / 256;
    assert n == n % 256 + 256 * a && a == a % 256 + 256 * b && b == b % 256 + 256 * c;
  }

  lemma InflateBlock(last: bool, chunk: bytes, rest: bytes)
    requires |chunk| <= MAX
    ensures Inflate(Block(last, chunk) + rest) ==
            if last then Some((chunk, rest))
            else match Inflate(rest)
                 case None => None
                 case Some((out, r)) => Some((chunk + out, r))
  {
    var z := Block(last, chunk) + rest;
    assert z[0] == if last then 1 else 0;
    assert z[1..3] == Le16(|chunk|) && z[3..5] == Le16(0xffff - |chunk|);
    assert z[5..5 + |chunk|] == chunk && z[5 + |chunk|..] == rest;
  }

  lemma {:induction false} InflateBlocks(data: bytes, rest: bytes)
    requires data != []
    ensures Inflate(Blocks(data) + rest) == Some((data, rest))
    decreases |data|
  {
    hide Inflate, Block;
    if |data| <= MAX {
      InflateBlock(true, data, rest);
    } else {
      var head, tail := data[..MAX], data[MAX..];
      InflateBlocks(tail, rest);
      InflateBlock(false, head, Blocks(tail) + rest);
      Regroup(Block(false, head), Blocks(tail), rest);
      assert head + tail == data;
    }
  }

  /** Every non-empty input is recovered; the empty input is not, because no block is written for it. */
  lemma RoundTrip(data: bytes)
    ensures Gunzip(Compressed(data)) == Some(data) <==> data != []
  {
    if data != [] {
      RecoversNonEmpty(data);
    } else {
      EmptyChecksum();
      var z := Compressed([]);
      assert z[10..] == [0, 0, 0, 0, 0, 0, 0, 0];
      assert Inflate(z[10..]).None?;
    }
  }

  lemma MemberParts(blocks: bytes, sum: bytes, size: bytes)
    requires |sum| == |size| == 4
    ensures var z := MEMBER_HEADER + blocks + sum + size;
            z[..4] == [0x1f, 0x8b, 8, 0] && z[10..] == blocks + (sum + size)
    ensures (sum + size)[..4] == sum && (sum + size)[4..] == size
  {
  }

  lemma RecoversNonEmpty(data: bytes)
    requires data != []
    ensures Gunzip(Compressed(data)) == Some(data)
  {
    var sum, size := Le32(Checksum(data)), Le32(|data| % 0x1_0000_0000);
    MemberParts(Blocks(data), sum, size);
    InflateBlocks(data, sum + size);
    Le32Reads(Checksum(data));
    Le32Reads(|data| % 0x1_0000_0000);
  }

  lemma EmptyChecksum()
    ensures Checksum([]) == 0
  {
    assert Crc32.Rfc1952Crc([]) == 0;
  }

  function CeilDiv(n: nat): nat {
    (n + 65534) / 65535
  }

  lemma {:induction false} BlocksLength(data: bytes)
    ensures |Blocks(data)| == |data| + 5 * CeilDiv(|data|)
    decreases |data|
  {
    if |data| > MAX {
      BlocksLength(data[MAX..]);
    }
  }

  /** The length and the fixed ten bytes in front: method 8, no flags, no time, no operating system. */
  lemma CompressedLength(data: bytes)
    ensures |Compressed(data)| == |data| + 18 + 5 * ((|data| + 65534) / 65535)
    ensures Compressed(data)[..10] == [0x1f, 0x8b, 8, 0, 0, 0, 0, 0, 0, 0xff]
  {
    BlocksLength(data);
  }

  /** A stored block and a trailer field, byte by byte. */
  lemma KnownBytes()
    ensures Block(true, [7, 9]) == [1, 2, 0, 0xfd, 0xff, 7, 9] && Block(false, []) == [0, 0, 0, 0xff, 0xff]
    ensures Le32(0x1234_5678) == [0x78, 0x56, 0x34, 0x12]
  {
  }
}
