/** The ustar writer, and a reader of the "ustar Interchange Format" (pax utility, POSIX.1-2017). */
module Tar {
  import opened Bytes
  import opened Wrappers
  import opened Octal

  const BLOCK: nat := 512
  const SLASH: byte := 47
  const USIZE_LIMIT: nat := 0x1_0000_0000_0000_0000
  const SIZE_FIELD_LIMIT: nat := 0x2_0000_0000

  /** What the walk found. A file carries the bytes reading it gives, if it can be read. */
  datatype Entry = Dir(rel: bytes) | File(rel: bytes, data: Option<bytes>)

  /** File lengths are `usize`. */
  predicate Addressable(e: Entry) {
    e.File? && e.data.Some? ==> |e.data.value| < USIZE_LIMIT
  }

  ghost predicate AllAddressable(entries: seq<Entry>) {
    forall i | 0 <= i < |entries| :: Addressable(entries[i])
  }

  // ---- A buffer as the list of writes made into it ----

  datatype Write = Write(at: nat, data: bytes)

  predicate Fits(ws: seq<Write>) {
    forall i | 0 <= i < |ws| :: ws[i].at + |ws[i].data| <= BLOCK
  }

  function Put(h: bytes, w: Write): (r: bytes)
    requires w.at + |w.data| <= |h|
    ensures |r| == |h|
  {
    h[..w.at] + w.data + h[w.at + |w.data|..]
  }

  function Applied(ws: seq<Write>): (h: bytes)
    requires Fits(ws)
    ensures |h| == BLOCK
  {
    if ws == [] then Zeros(BLOCK) else Put(Applied(ws[..|ws| - 1]), ws[|ws| - 1])
  }

  predicate Apart(w: Write, lo: nat, hi: nat) {
    hi <= w.at || w.at + |w.data| <= lo
  }

  lemma {:induction false} Untouched(ws: seq<Write>, lo: nat, hi: nat)
    requires Fits(ws) && lo <= hi <= BLOCK
    requires forall i | 0 <= i < |ws| :: Apart(ws[i], lo, hi)
    ensures Applied(ws)[lo..hi] == Zeros(hi - lo)
    decreases |ws|
  {
    if ws != [] {
      Untouched(ws[..|ws| - 1], lo, hi);
      PutElsewhere(Applied(ws[..|ws| - 1]), ws[|ws| - 1], lo, hi);
    }
  }

  lemma PutShows(h: bytes, w: Write, hi: nat)
    requires w.at + |w.data| <= |h| && w.at <= hi <= |h|
    ensures Put(h, w)[w.at..hi] == if w.at + |w.data| <= hi then w.data + h[w.at + |w.data|..hi] else w.data[..hi - w.at]
  {
    var r, end := Put(h, w), w.at + |w.data|;
    if end <= hi {
      assert r[w.at..hi] == r[w.at..end] + r[end..hi];
      assert r[w.at..end] == w.data;
      assert r[end..] == h[end..];
      assert r[end..hi] == r[end..][..hi - end];
      assert h[end..hi] == h[end..][..hi - end];
    } else {
      assert r[w.at..hi] == w.data[..hi - w.at];
    }
  }

  lemma PutElsewhere(h: bytes, w: Write, lo: nat, hi: nat)
    requires w.at + |w.data| <= |h| && lo <= hi <= |h| && Apart(w, lo, hi)
    ensures Put(h, w)[lo..hi] == h[lo..hi]
  {
  }

  /** A field holds its own write, zero-filled or cut to length, when the writes after it
      stay out of the field and the writes before it stay out of the filling. */
  lemma {:induction false} FieldShows(ws: seq<Write>, k: nat, hi: nat)
    requires Fits(ws) && k < |ws| && ws[k].at <= hi <= BLOCK
    requires forall i | k < i < |ws| :: Apart(ws[i], ws[k].at, hi)
    requires forall i | 0 <= i < k :: Apart(ws[i], ws[k].at + |ws[k].data|, hi)
    ensures var lo, d := ws[k].at, ws[k].data;
            Applied(ws)[lo..hi] == if |d| <= hi - lo then d + Zeros(hi - lo - |d|) else d[..hi - lo]
    decreases |ws|
  {
    var lo, d, rest := ws[k].at, ws[k].data, ws[..|ws| - 1];
    if k == |ws| - 1 {
      PutShows(Applied(rest), ws[k], hi);
      if |d| <= hi - lo {
        Untouched(rest, lo + |d|, hi);
      }
    } else {
      FieldShows(rest, k, hi);
      PutElsewhere(Applied(rest), ws[|ws| - 1], lo, hi);
    }
  }

  // ---- Header ----

  /** `path` may be cut at the slash `i` into a prefix and a non-empty name that fit their fields. */
  predicate LegalSplit(path: bytes, i: int) {
    0 <= i < |path| && path[i] == SLASH && i <= 155 && 1 <= |path| - i - 1 <= 100
  }

  /** Where a header cuts the path: nowhere, at a slash, or it cannot. */
  datatype Cut = Whole | At(i: nat) | TooLong

  /** A short path stays whole; a long one is cut at its first legal slash, and refused
      exactly when it has none. */
  ghost predicate CutOf(path: bytes, c: Cut) {
    match c
    case Whole => |path| <= 100
    case At(i) => |path| > 100 && LegalSplit(path, i) && forall j | 0 <= j < i :: !LegalSplit(path, j)
    case TooLong => |path| > 100 && forall i :: !LegalSplit(path, i)
  }

  function CutFrom(path: bytes, i: nat): (c: Cut)
    requires i <= |path| && |path| > 100 && forall j | 0 <= j < i :: !LegalSplit(path, j)
    ensures CutOf(path, c)
    decreases |path| - i
  {
    if i == |path| then TooLong else if LegalSplit(path, i) then At(i) else CutFrom(path, i + 1)
  }

  function CutFor(path: bytes): (c: Cut)
    ensures CutOf(path, c)
  {
    if |path| <= 100 then Whole else CutFrom(path, 0)
  }

  lemma CutUnique(path: bytes, c: Cut)
    requires CutOf(path, c)
    ensures c == CutFor(path)
  {
    var d := CutFor(path);
    assert c.At? ==> LegalSplit(path, c.i);
    assert d.At? ==> LegalSplit(path, d.i);
  }

  method FindCut(path: bytes) returns (c: Cut)
    ensures c == CutFor(path)
  {
    if |path| <= 100 {
      return Whole;
    }
    for i := 0 to |path|
      invariant forall j | 0 <= j < i :: !LegalSplit(path, j)
    {
      if path[i] == SLASH && i <= 155 && |path| - i - 1 <= 100 {
        if |path| - i - 1 > 0 {
          CutUnique(path, At(i));
          return At(i);
        }
      }
    }
    CutUnique(path, TooLong);
    return TooLong;
  }

  function PrefixPart(path: bytes, c: Cut): bytes
    requires c.At? ==> c.i < |path|
  {
    if c.At? then path[..c.i] else []
  }

  function NamePart(path: bytes, c: Cut): bytes
    requires c.At? ==> c.i < |path|
  {
    if c.At? then path[c.i + 1..] else path
  }

  const SPACES: bytes := [32, 32, 32, 32, 32, 32, 32, 32]
  const USTAR: bytes := [117, 115, 116, 97, 114, 0]
  const VERSION: bytes := [48, 48]

  function Writes(prefix: bytes, name: bytes, mode: nat, size: nat, kind: byte): seq<Write> {
    [Write(0, name), Write(100, Padded(mode, 7) + [0]), Write(108, Padded(0, 7) + [0]), Write(116, Padded(0, 7) + [0]),
     Write(124, Padded(size, 11) + [0]), Write(136, Padded(0, 11) + [0]), Write(148, SPACES), Write(156, [kind]),
     Write(257, USTAR), Write(263, VERSION), Write(345, prefix)]
  }

  predicate HeaderInputs(prefix: bytes, name: bytes, mode: nat, size: nat) {
    |prefix| <= 155 && |name| <= 100 && mode < 0x20_0000 && size < USIZE_LIMIT
  }

  lemma WritesFit(prefix: bytes, name: bytes, mode: nat, size: nat, kind: byte)
    requires HeaderInputs(prefix, name, mode, size)
    ensures Fits(Writes(prefix, name, mode, size, kind))
    ensures |Padded(mode, 7)| == 7 && |Padded(0, 7)| == 7 && |Padded(0, 11)| == 11
    ensures 11 <= |Padded(size, 11)| <= 22
    ensures |Padded(size, 11)| == 11 <==> size < SIZE_FIELD_LIMIT
  {
    PaddedLength(mode, 7);
    PaddedLength(0, 7);
    PaddedLength(0, 11);
    PaddedLength(size, 11);
    Powers();
    DigitsLength(size, 22);
  }

  function Sum(h: bytes): nat {
    if h == [] then 0 else Sum(h[..|h| - 1]) + h[|h| - 1]
  }

  lemma {:induction false} SumBound(h: bytes)
    ensures Sum(h) <= 255 * |h|
  {
    if h != [] {
      SumBound(h[..|h| - 1]);
    }
  }

  /** The checksum of a block is below 8^6, so it always fits its six digits. */
  lemma ChecksumFits(h: bytes)
    requires |h| == BLOCK
    ensures |Padded(Sum(h), 6)| == 6
  {
    SumBound(h);
    Powers();
    PaddedLength(Sum(h), 6);
  }

  function HeaderBlock(prefix: bytes, name: bytes, mode: nat, size: nat, kind: byte): (h: bytes)
    requires HeaderInputs(prefix, name, mode, size)
    ensures |h| == BLOCK
  {
    var ws := Writes(prefix, name, mode, size, kind);
    WritesFit(prefix, name, mode, size, kind);
    ChecksumFits(Applied(ws));
    Applied(ws + [Write(148, Padded(Sum(Applied(ws)), 6) + [0, 32])])
  }

  function HeaderFor(path: bytes, mode: nat, size: nat, kind: byte): Option<bytes>
    requires mode < 0x20_0000 && size < USIZE_LIMIT
  {
    var c := CutFor(path);
    if c.TooLong? then None
    else Some(HeaderBlock(PrefixPart(path, c), NamePart(path, c), mode, size, kind))
  }

  method PutBytes(h: array<byte>, at: nat, data: bytes)
    requires at + |data| <= h.Length
    modifies h
    ensures h[..] == Put(old(h[..]), Write(at, data))
  {
    for i := 0 to |data|
      invariant forall j | 0 <= j < h.Length :: h[j] == if at <= j < at + i then data[j - at] else old(h[j])
    {
      h[at + i] := data[i];
    }
  }

  method SumBytes(h: array<byte>) returns (sum: nat)
    ensures sum == Sum(h[..])
  {
    sum := 0;
    for i := 0 to h.Length
      invariant sum == Sum(h[..i])
    {
      assert h[..i + 1][..i] == h[..i];
      sum := sum + h[i];
    }
    assert h[..h.Length] == h[..];
  }

  /** After one more write the buffer shows one more element of the list. */
  lemma AppliedNext(ws: seq<Write>, k: nat)
    requires Fits(ws) && k < |ws|
    ensures Fits(ws[..k]) && Fits(ws[..k + 1])
    ensures Applied(ws[..k + 1]) == Put(Applied(ws[..k]), ws[k])
  {
    assert ws[..k + 1][..k] == ws[..k];
  }

  method WriteFields(h: array<byte>, ws: seq<Write>)
    requires h.Length == BLOCK && h[..] == Zeros(BLOCK) && Fits(ws)
    modifies h
    ensures h[..] == Applied(ws)
  {
    assert ws[..0] == [];
    for k := 0 to |ws|
      invariant Fits(ws[..k]) && h[..] == Applied(ws[..k])
    {
      AppliedNext(ws, k);
      PutBytes(h, ws[k].at, ws[k].data);
    }
    assert ws[..|ws|] == ws;
  }

  method Header(path: bytes, mode: nat, size: nat, kind: byte) returns (r: Option<bytes>)
    requires mode < 0x20_0000 && size < USIZE_LIMIT
    ensures r == HeaderFor(path, mode, size, kind)
  {
    var c := FindCut(path);
    if c.TooLong? {
      return None;
    }
    var prefix, name := PrefixPart(path, c), NamePart(path, c);
    WritesFit(prefix, name, mode, size, kind);
    var h := new byte[BLOCK](_ => 0);
    assert h[..] == Zeros(BLOCK);
    var ws := Writes(prefix, name, mode, size, kind);
    WriteFields(h, ws);
    var sum := SumBytes(h);
    ChecksumFits(h[..]);
    var w := Write(148, Padded(sum, 6) + [0, 32]);
    PutBytes(h, w.at, w.data);
    assert (ws + [w])[..|ws|] == ws;
    return Some(h[..]);
  }

  // ---- Archive ----

  function Pad(n: nat): nat {
    (BLOCK - n % BLOCK) % BLOCK
  }

  predicate Aligned(b: bytes) {
    |b| % BLOCK == 0
  }

  lemma PadAligned(a: nat, n: nat)
    requires a % BLOCK == 0
    ensures Pad(a + n) == Pad(n) && (a + n + Pad(n)) % BLOCK == 0
  {
    assert (a + n) % BLOCK == n % BLOCK;
    assert (n + Pad(n)) % BLOCK == 0;
  }

  function EntryPath(e: Entry): bytes {
    match e
    case Dir(rel) => rel + [SLASH]
    case File(rel, _) => rel
  }

  ghost function EntryBytes(e: Entry): Option<bytes>
    requires Addressable(e)
  {
    match e
    case Dir(rel) => HeaderFor(rel + [SLASH], 493, 0, 53)
    case File(rel, data) =>
      if data.None? then None
      else
        match HeaderFor(rel, 420, |data.value|, 48)
        case None => None
        case Some(h) => Some(h + data.value + Zeros(Pad(|data.value|)))
  }

  function Prepend(out: bytes, rest: Option<bytes>): Option<bytes> {
    if rest.None? then None else Some(out + rest.value)
  }

  lemma PrependTwice(a: bytes, b: bytes, rest: Option<bytes>)
    ensures Prepend(a, Prepend(b, rest)) == Prepend(a + b, rest)
  {
    if rest.Some? {
      assert a + (b + rest.value) == a + b + rest.value;
    }
  }

  ghost function Body(entries: seq<Entry>): Option<bytes>
    requires AllAddressable(entries)
  {
    if entries == [] then Some([])
    else
      match EntryBytes(entries[0])
      case None => None
      case Some(b) => Prepend(b, Body(entries[1..]))
  }

  ghost function Archive(entries: seq<Entry>): Option<bytes>
    requires AllAddressable(entries)
  {
    match Body(entries)
    case None => None
    case Some(b) => Some(b + Zeros(2 * BLOCK))
  }

  lemma FileAligned(h: bytes, data: bytes)
    requires |h| == BLOCK
    ensures Aligned(h + data + Zeros(Pad(|data|))) && |h + data + Zeros(Pad(|data|))| >= BLOCK
  {
    PadAligned(BLOCK, |data|);
  }

  lemma EntryAligned(e: Entry)
    requires Addressable(e) && EntryBytes(e).Some?
    ensures Aligned(EntryBytes(e).value) && |EntryBytes(e).value| >= BLOCK
  {
    if e.File? {
      FileAligned(HeaderFor(e.rel, 420, |e.data.value|, 48).value, e.data.value);
    }
  }

  lemma FilePadding(start: bytes, h: bytes, data: bytes)
    requires Aligned(start) && |h| == BLOCK
    ensures var out := start + h + data;
            out + Zeros(Pad(|out|)) == start + (h + data + Zeros(Pad(|data|)))
  {
    PadAligned(|start| + BLOCK, |data|);
  }

  method AppendEntry(start: bytes, e: Entry) returns (r: Option<bytes>)
    requires Addressable(e) && Aligned(start)
    ensures r == Prepend(start, EntryBytes(e))
  {
    match e
    case Dir(rel) =>
      var h := Header(rel + [SLASH], 493, 0, 53);
      r := Prepend(start, h);
    case File(rel, data) =>
      if data.None? {
        return None;
      }
      var h := Header(rel, 420, |data.value|, 48);
      if h.None? {
        return None;
      }
      var out := start + h.value + data.value;
      FilePadding(start, h.value, data.value);
      r := Some(out + Zeros(Pad(|out|)));
  }

  method Tar(entries: seq<Entry>) returns (r: Option<bytes>)
    requires AllAddressable(entries)
    ensures r == Archive(entries)
  {
    var out: bytes := [];
    assert entries[0..] == entries;
    assert Body(entries).Some? ==> [] + Body(entries).value == Body(entries).value;
    for i := 0 to |entries|
      invariant Aligned(out)
      invariant Body(entries) == Prepend(out, Body(entries[i..]))
    {
      var next := AppendEntry(out, entries[i]);
      LoopStep(entries, i, out, next);
      if next.None? {
        return None;
      }
      out := next.value;
    }
    assert entries[|entries|..] == [] && out + [] == out;
    r := Some(out + Zeros(2 * BLOCK));
  }

  lemma BodyStep(entries: seq<Entry>, i: nat)
    requires i < |entries| && AllAddressable(entries)
    ensures Body(entries[i..]) == match EntryBytes(entries[i])
                                  case None => None
                                  case Some(b) => Prepend(b, Body(entries[i + 1..]))
  {
    assert entries[i..][0] == entries[i] && entries[i..][1..] == entries[i + 1..];
  }

  lemma LoopStep(entries: seq<Entry>, i: nat, out: bytes, next: Option<bytes>)
    requires i < |entries| && AllAddressable(entries) && Aligned(out)
    requires Body(entries) == Prepend(out, Body(entries[i..]))
    requires next == Prepend(out, EntryBytes(entries[i]))
    ensures next.None? ==> Body(entries).None?
    ensures next.Some? ==> Aligned(next.value) && Body(entries) == Prepend(next.value, Body(entries[i + 1..]))
  {
    BodyStep(entries, i);
    if next.Some? {
      EntryAligned(entries[i]);
      JoinStep(out, EntryBytes(entries[i]).value, Body(entries[i + 1..]), Body(entries));
    }
  }

  lemma JoinStep(out: bytes, b: bytes, rest: Option<bytes>, whole: Option<bytes>)
    requires whole == Prepend(out, Prepend(b, rest)) && Aligned(out) && Aligned(b)
    ensures Aligned(out + b) && whole == Prepend(out + b, rest)
  {
    PrependTwice(out, b, rest);
  }
}
