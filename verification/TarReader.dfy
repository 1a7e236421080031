/** A reader of the "ustar Interchange Format" (pax utility, POSIX.1-2017), and the
    round trip with the writer. */
module TarReader {
  import opened Bytes
  import opened Wrappers
  import opened Octal
  import opened Tar

  datatype Meta = Meta(path: bytes, mode: nat, uid: nat, gid: nat, mtime: nat, kind: byte, size: nat)

  datatype Member = Member(meta: Meta, content: bytes)

  /** A text field ends at its first NUL, or at its end. */
  function UpToNul(f: bytes): bytes {
    if f == [] || f[0] == 0 then [] else [f[0]] + UpToNul(f[1..])
  }

  function Join(prefix: bytes, name: bytes): bytes {
    if prefix == [] then name else prefix + [47] + name
  }

  function Number(h: bytes, lo: nat, hi: nat): Option<nat>
    requires lo <= hi <= |h|
  {
    ParseOctal(h[lo..hi], 0)
  }

  /** The sum of a block's bytes from `i` on, its checksum field read as spaces. */
  function Total(h: bytes, i: nat): nat
    decreases |h| - i
  {
    if i >= |h| then 0 else (if 148 <= i < 156 then 32 else h[i]) + Total(h, i + 1)
  }

  predicate ChecksumValid(h: bytes)
    requires |h| == 512
  {
    Number(h, 148, 156) == Some(Total(h, 0))
  }

  function ReadHeader(h: bytes): Option<Meta>
    requires |h| == 512
  {
    var mode, uid, gid := Number(h, 100, 108), Number(h, 108, 116), Number(h, 116, 124);
    var size, mtime := Number(h, 124, 136), Number(h, 136, 148);
    if h[257..263] == [117, 115, 116, 97, 114, 0] && h[263..265] == [48, 48] && ChecksumValid(h)
       && mode.Some? && uid.Some? && gid.Some? && size.Some? && mtime.Some?
    then Some(Meta(Join(UpToNul(h[345..500]), UpToNul(h[0..100])),
                   mode.value, uid.value, gid.value, mtime.value, h[156], size.value))
    else None
  }

  /** Members up to the two zero blocks that end an archive. */
  function Untar(b: bytes): Option<seq<Member>> {
    if |b| < 512 then None
    else if b[..512] == Zeros(512) then
      if |b| >= 1024 && b[512..1024] == Zeros(512) then Some([]) else None
    else
      match ReadHeader(b[..512])
      case None => None
      case Some(m) =>
        var end := 512 + (m.size + 511) / 512 * 512;
        if |b| < end then None
        else
          match Untar(b[end..])
          case None => None
          case Some(rest) => Some([Member(m, b[512..512 + m.size])] + rest)
  }

  lemma RoundedUp(n: nat)
    ensures (n + 511) / 512 * 512 == n + Pad(n)
  {
    var q, r := n / 512, n % 512;
    assert n == 512 * q + r;
    if r == 0 {
      assert (n + 511) / 512 == q;
    } else {
      assert (n + 511) / 512 == q + 1;
    }
  }

  lemma {:induction false} TotalSums(h: bytes, x: bytes, i: nat)
    requires |h| == |x| && i <= |h|
    requires forall j | 0 <= j < |h| :: x[j] == if 148 <= j < 156 then 32 else h[j]
    ensures Sum(x) == Sum(x[..i]) + Total(h, i)
    decreases |h| - i
  {
    if i == |h| {
      assert x[..i] == x;
    } else {
      TotalSums(h, x, i + 1);
      assert x[..i + 1][..i] == x[..i];
    }
  }

  lemma TotalIs(h: bytes)
    requires |h| == BLOCK
    ensures Total(h, 0) == Sum(Put(h, Write(148, SPACES)))
  {
    var x := Put(h, Write(148, SPACES));
    forall j | 0 <= j < |h| ensures x[j] == if 148 <= j < 156 then 32 else h[j] {
      assert 148 <= j < 156 ==> x[j] == SPACES[j - 148];
    }
    TotalSums(h, x, 0);
    assert x[..0] == [];
  }

  // ---- What each field of a written header reads as ----

  predicate NulFree(s: bytes) {
    forall i | 0 <= i < |s| :: s[i] != 0
  }

  lemma {:induction false} UpToNulReads(d: bytes, k: nat)
    ensures NulFree(UpToNul(d + Zeros(k))) && UpToNul(d + Zeros(k)) <= d
    ensures NulFree(d) ==> UpToNul(d + Zeros(k)) == d
    decreases |d|
  {
    var f := d + Zeros(k);
    if d != [] {
      assert f[0] == d[0] && f[1..] == d[1..] + Zeros(k);
      if d[0] != 0 {
        UpToNulReads(d[1..], k);
        assert d == [d[0]] + d[1..];
      }
    }
  }

  /** All the writes of a header, the checksum included. */
  function AllWrites(prefix: bytes, name: bytes, mode: nat, size: nat, kind: byte): (ws: seq<Write>)
    requires HeaderInputs(prefix, name, mode, size)
    ensures Fits(ws) && |ws| == 12
    ensures Applied(ws) == HeaderBlock(prefix, name, mode, size, kind)
  {
    var ws := Writes(prefix, name, mode, size, kind);
    WritesFit(prefix, name, mode, size, kind);
    ChecksumFits(Applied(ws));
    ws + [Write(148, Padded(Sum(Applied(ws)), 6) + [0, 32])]
  }

  /** The offsets and lengths of a header's writes; only the size may outgrow its field. */
  ghost predicate Laid(ws: seq<Write>) {
    && |ws| == 12 && Fits(ws)
    && ws[0].at == 0 && |ws[0].data| <= 100
    && ws[1].at == 100 && |ws[1].data| == 8
    && ws[2].at == 108 && |ws[2].data| == 8
    && ws[3].at == 116 && |ws[3].data| == 8
    && ws[4].at == 124 && 12 <= |ws[4].data| <= 23
    && ws[5].at == 136 && |ws[5].data| == 12
    && ws[6].at == 148 && |ws[6].data| == 8
    && ws[7].at == 156 && |ws[7].data| == 1
    && ws[8].at == 257 && |ws[8].data| == 6
    && ws[9].at == 263 && |ws[9].data| == 2
    && ws[10].at == 345 && |ws[10].data| <= 155
    && ws[11].at == 148 && |ws[11].data| == 8
  }

  function FieldEnd(k: nat): nat
    requires k < 12
  {
    [100, 108, 116, 124, 136, 148, 156, 157, 263, 265, 500, 156][k]
  }

  /** Each field of a laid-out header shows its write, zero-filled or cut to length. */
  lemma FieldOf(ws: seq<Write>, k: nat)
    requires Laid(ws) && k < 12 && k != 6
    ensures var lo, hi, d := ws[k].at, FieldEnd(k), ws[k].data;
            && lo <= hi <= BLOCK
            && Applied(ws)[lo..hi] == if |d| <= hi - lo then d + Zeros(hi - lo - |d|) else d[..hi - lo]
  {
    hide Applied;
    var lo, hi, end := ws[k].at, FieldEnd(k), ws[k].at + |ws[k].data|;
    forall i | k < i < |ws| ensures Apart(ws[i], lo, hi) {
    }
    forall i | 0 <= i < k ensures Apart(ws[i], end, hi) {
    }
    FieldShows(ws, k, hi);
  }

  ghost predicate Filled(ws: seq<Write>, prefix: bytes, name: bytes, mode: nat, size: nat, kind: byte) {
    && Laid(ws)
    && ws[0].data == name && ws[1].data == Padded(mode, 7) + [0] && ws[2].data == Padded(0, 7) + [0]
    && ws[3].data == Padded(0, 7) + [0] && ws[4].data == Padded(size, 11) + [0] && ws[5].data == Padded(0, 11) + [0]
    && ws[7].data == [kind] && ws[8].data == USTAR && ws[9].data == VERSION && ws[10].data == prefix
  }

  lemma AllFilled(prefix: bytes, name: bytes, mode: nat, size: nat, kind: byte)
    requires HeaderInputs(prefix, name, mode, size)
    ensures Filled(AllWrites(prefix, name, mode, size, kind), prefix, name, mode, size, kind)
  {
    var ws := Writes(prefix, name, mode, size, kind);
    WritesFit(prefix, name, mode, size, kind);
    ChecksumFits(Applied(ws));
    var all := AllWrites(prefix, name, mode, size, kind);
    assert all[11].at == 148 && |all[11].data| == 8;
    assert all[0] == ws[0] && all[1] == ws[1] && all[2] == ws[2] && all[3] == ws[3] && all[4] == ws[4] && all[5] == ws[5];
    assert all[6] == ws[6] && all[7] == ws[7] && all[8] == ws[8] && all[9] == ws[9] && all[10] == ws[10];
  }

  lemma SpacesBefore(prefix: bytes, name: bytes, mode: nat, size: nat, kind: byte)
    requires HeaderInputs(prefix, name, mode, size)
    ensures var plain := Writes(prefix, name, mode, size, kind);
            Fits(plain) && Applied(plain)[148..156] == SPACES
  {
    var plain := Writes(prefix, name, mode, size, kind);
    WritesFit(prefix, name, mode, size, kind);
    FieldShows(plain, 6, 156);
  }

  lemma PutBack(h: bytes, data: bytes)
    requires |h| == BLOCK && |data| == 8 && h[148..156] == SPACES
    ensures Put(Put(h, Write(148, data)), Write(148, SPACES)) == h
  {
  }

  /** Every header's checksum validates. */
  lemma HeaderChecksum(prefix: bytes, name: bytes, mode: nat, size: nat, kind: byte)
    requires HeaderInputs(prefix, name, mode, size)
    ensures ChecksumValid(HeaderBlock(prefix, name, mode, size, kind))
  {
    var plain := Writes(prefix, name, mode, size, kind);
    SpacesBefore(prefix, name, mode, size, kind);
    var before := Applied(plain);
    ChecksumFits(before);
    var data := Padded(Sum(before), 6) + [0, 32];
    var ws := plain + [Write(148, data)];
    assert ws[..11] == plain;
    var h := Put(before, Write(148, data));
    assert h[148..156] == data;
    ParsePadded(Sum(before), 6, [0, 32]);
    PutBack(before, data);
    TotalIs(h);
  }

  lemma NumberField(ws: seq<Write>, k: nat, n: nat, width: nat)
    requires Laid(ws) && 1 <= k <= 5 && ws[k].data == Padded(n, width) + [0]
    requires |ws[k].data| == FieldEnd(k) - ws[k].at
    ensures Number(Applied(ws), ws[k].at, FieldEnd(k)) == Some(n)
  {
    hide Applied;
    FieldOf(ws, k);
    assert Applied(ws)[ws[k].at..FieldEnd(k)] == ws[k].data;
    ParsePadded(n, width, [0]);
  }

  lemma NameFields(ws: seq<Write>, prefix: bytes, name: bytes)
    requires Laid(ws) && ws[0].data == name && ws[10].data == prefix
    ensures Applied(ws)[0..100] == name + Zeros(100 - |name|) && Applied(ws)[345..500] == prefix + Zeros(155 - |prefix|)
  {
    hide Applied;
    FieldOf(ws, 0);
    FieldOf(ws, 10);
  }

  lemma MagicFields(ws: seq<Write>)
    requires Laid(ws) && ws[8].data == USTAR && ws[9].data == VERSION
    ensures Applied(ws)[257..263] == USTAR && Applied(ws)[263..265] == VERSION
  {
    hide Applied;
    FieldOf(ws, 8);
    FieldOf(ws, 9);
  }

  lemma KindField(ws: seq<Write>, kind: byte)
    requires Laid(ws) && ws[7].data == [kind]
    ensures Applied(ws)[156] == kind
  {
    hide Applied;
    FieldOf(ws, 7);
    assert Applied(ws)[156..157] == [kind];
    assert Applied(ws)[156] == Applied(ws)[156..157][0];
  }

  /** A size of 8^11 or more leaves its field without a terminator. */
  lemma OversizeField(ws: seq<Write>, size: nat)
    requires Laid(ws) && ws[4].data == Padded(size, 11) + [0] && |Padded(size, 11)| >= 12
    ensures Number(Applied(ws), 124, 136) == None
  {
    hide Applied;
    FieldOf(ws, 4);
    var f := Applied(ws)[124..136];
    assert f == Padded(size, 11)[..12];
    DigitsAreDigits(size);
    Unterminated(f, 0);
  }

  function ReadPath(prefix: bytes, name: bytes): bytes
    requires |prefix| <= 155 && |name| <= 100
  {
    Join(UpToNul(prefix + Zeros(155 - |prefix|)), UpToNul(name + Zeros(100 - |name|)))
  }

  lemma OwnerFields(ws: seq<Write>, mode: nat)
    requires Laid(ws) && ws[1].data == Padded(mode, 7) + [0] && ws[2].data == Padded(0, 7) + [0] && ws[3].data == Padded(0, 7) + [0]
    ensures var h := Applied(ws);
            Number(h, 100, 108) == Some(mode) && Number(h, 108, 116) == Some(0) && Number(h, 116, 124) == Some(0)
  {
    hide Applied;
    NumberField(ws, 1, mode, 7);
    NumberField(ws, 2, 0, 7);
    NumberField(ws, 3, 0, 7);
  }

  lemma SizeFields(ws: seq<Write>, size: nat)
    requires Laid(ws) && ws[4].data == Padded(size, 11) + [0] && ws[5].data == Padded(0, 11) + [0]
    requires |Padded(size, 11)| == 11 <==> size < SIZE_FIELD_LIMIT
    ensures var h := Applied(ws);
            && Number(h, 136, 148) == Some(0)
            && Number(h, 124, 136) == if size < SIZE_FIELD_LIMIT then Some(size) else None
  {
    hide Applied;
    NumberField(ws, 5, 0, 11);
    if size < SIZE_FIELD_LIMIT {
      NumberField(ws, 4, size, 11);
    } else {
      OversizeField(ws, size);
    }
  }

  lemma FilledReads(ws: seq<Write>, prefix: bytes, name: bytes, mode: nat, size: nat, kind: byte)
    requires Filled(ws, prefix, name, mode, size, kind) && ChecksumValid(Applied(ws))
    requires |Padded(size, 11)| == 11 <==> size < SIZE_FIELD_LIMIT
    ensures ReadHeader(Applied(ws)) ==
            if size < SIZE_FIELD_LIMIT then Some(Meta(ReadPath(prefix, name), mode, 0, 0, 0, kind, size)) else None
  {
    hide Applied;
    OwnerFields(ws, mode);
    SizeFields(ws, size);
    NameFields(ws, prefix, name);
    MagicFields(ws);
    KindField(ws, kind);
  }

  lemma HeaderReads(prefix: bytes, name: bytes, mode: nat, size: nat, kind: byte)
    requires HeaderInputs(prefix, name, mode, size)
    ensures ReadHeader(HeaderBlock(prefix, name, mode, size, kind)) ==
            if size < SIZE_FIELD_LIMIT then Some(Meta(ReadPath(prefix, name), mode, 0, 0, 0, kind, size)) else None
  {
    HeaderChecksum(prefix, name, mode, size, kind);
    WritesFit(prefix, name, mode, size, kind);
    AllFilled(prefix, name, mode, size, kind);
    FilledReads(AllWrites(prefix, name, mode, size, kind), prefix, name, mode, size, kind);
  }

  /** The path survives its cut exactly when it has no NUL and is not a 101-byte path cut at
      a leading slash. */
  predicate PathSurvives(path: bytes) {
    NulFree(path) && !(|path| == 101 && path[0] == SLASH)
  }

  lemma JoinNulFree(p: bytes, n: bytes)
    requires NulFree(p) && NulFree(n)
    ensures NulFree(Join(p, n))
  {
  }

  lemma WholeReads(path: bytes)
    requires |path| <= 100
    ensures ReadPath([], path) == path <==> NulFree(path)
  {
    UpToNulReads([], 155);
    UpToNulReads(path, 100 - |path|);
  }

  lemma SplitReads(path: bytes, i: nat)
    requires LegalSplit(path, i)
    ensures ReadPath(path[..i], path[i + 1..]) == path <==> NulFree(path) && i > 0
  {
    var prefix, name := path[..i], path[i + 1..];
    UpToNulReads(prefix, 155 - |prefix|);
    UpToNulReads(name, 100 - |name|);
    var r := ReadPath(prefix, name);
    JoinNulFree(UpToNul(prefix + Zeros(155 - |prefix|)), UpToNul(name + Zeros(100 - |name|)));
    if NulFree(path) && i > 0 {
      assert r == prefix + [SLASH] + name;
    } else if NulFree(path) {
      assert r == name;
    }
  }

  lemma PathReads(path: bytes)
    requires !CutFor(path).TooLong?
    ensures var c := CutFor(path);
            ReadPath(PrefixPart(path, c), NamePart(path, c)) == path <==> PathSurvives(path)
  {
    var c := CutFor(path);
    if c.At? {
      SplitReads(path, c.i);
      if |path| == 101 && path[0] == SLASH {
        assert LegalSplit(path, 0);
      }
    } else {
      WholeReads(path);
    }
  }

  // ---- Round trip ----

  function MemberOf(e: Entry): Member {
    match e
    case Dir(rel) => Member(Meta(rel + [SLASH], 493, 0, 0, 0, 53, 0), [])
    case File(rel, data) =>
      var d := if data.Some? then data.value else [];
      Member(Meta(rel, 420, 0, 0, 0, 48, |d|), d)
  }

  function MembersOf(entries: seq<Entry>): (ms: seq<Member>)
    ensures |ms| == |entries|
  {
    if entries == [] then [] else [MemberOf(entries[0])] + MembersOf(entries[1..])
  }

  /** A directory's path ends in a slash; directories are 0755 and files 0644, owned by 0:0 at time 0. */
  lemma {:induction false} MembersAre(entries: seq<Entry>, i: nat)
    requires i < |entries|
    ensures MembersOf(entries)[i] ==
            match entries[i]
            case Dir(rel) => Member(Meta(rel + [0x2f], 0x1ed, 0, 0, 0, 0x35, 0), [])
            case File(rel, data) =>
              if data.Some? then Member(Meta(rel, 0x1a4, 0, 0, 0, 0x30, |data.value|), data.value)
              else Member(Meta(rel, 0x1a4, 0, 0, 0, 0x30, 0), [])
    decreases |entries|
  {
    if i > 0 {
      MembersAre(entries[1..], i - 1);
    }
  }

  /** What a caller can check beforehand: the path survives its cut and the size fits its field. */
  predicate Recoverable(e: Entry) {
    PathSurvives(EntryPath(e)) && (e.File? && e.data.Some? ==> |e.data.value| < SIZE_FIELD_LIMIT)
  }

  lemma HeaderNotZero(prefix: bytes, name: bytes, mode: nat, size: nat, kind: byte)
    requires HeaderInputs(prefix, name, mode, size)
    ensures HeaderBlock(prefix, name, mode, size, kind) != Zeros(BLOCK)
  {
    AllFilled(prefix, name, mode, size, kind);
    MagicFields(AllWrites(prefix, name, mode, size, kind));
    var h := HeaderBlock(prefix, name, mode, size, kind);
    assert h[257..263][0] == h[257] == 117;
  }

  lemma EntryStartsWithHeader(e: Entry, h: bytes)
    requires Addressable(e) && EntryBytes(e).Some?
    requires HeaderFor(EntryPath(e), MemberOf(e).meta.mode, MemberOf(e).meta.size, MemberOf(e).meta.kind) == Some(h)
    ensures |EntryBytes(e).value| >= BLOCK && EntryBytes(e).value[..BLOCK] == h
  {
  }

  /** A header block of an entry followed by anything reads as that entry, or is refused. */
  lemma EntryHeader(e: Entry)
    requires Addressable(e) && EntryBytes(e).Some?
    ensures var b := EntryBytes(e).value;
            && |b| >= BLOCK && b[..BLOCK] != Zeros(BLOCK)
            && (Recoverable(e) ==> ReadHeader(b[..BLOCK]) == Some(MemberOf(e).meta))
            && (!Recoverable(e) ==> ReadHeader(b[..BLOCK]) != Some(MemberOf(e).meta))
  {
    var path := EntryPath(e);
    var c := CutFor(path);
    var prefix, name := PrefixPart(path, c), NamePart(path, c);
    var m := MemberOf(e).meta;
    HeaderReads(prefix, name, m.mode, m.size, m.kind);
    HeaderNotZero(prefix, name, m.mode, m.size, m.kind);
    PathReads(path);
    EntryStartsWithHeader(e, HeaderBlock(prefix, name, m.mode, m.size, m.kind));
  }

  lemma Sliced(h: bytes, d: bytes, z: bytes, rest: bytes)
    ensures var b := h + d + z;
            && (b + rest)[..|h|] == b[..|h|] == h
            && (b + rest)[|h|..|h| + |d|] == d
            && (b + rest)[|b|..] == rest
  {
  }

  lemma EntryParts(e: Entry)
    requires Addressable(e) && EntryBytes(e).Some?
    ensures var b, m := EntryBytes(e).value, MemberOf(e);
            && |b| >= BLOCK && |m.content| == m.meta.size
            && b == b[..BLOCK] + m.content + Zeros(Pad(m.meta.size))
  {
    var b := EntryBytes(e).value;
    if e.Dir? {
      assert b == b[..BLOCK] + [] + Zeros(0);
    } else {
      var h := HeaderFor(e.rel, 420, |e.data.value|, 48).value;
      assert (h + e.data.value + Zeros(Pad(|e.data.value|)))[..BLOCK] == h;
    }
  }

  lemma EntryShape(e: Entry, rest: bytes)
    requires Addressable(e) && EntryBytes(e).Some?
    ensures var b, m := EntryBytes(e).value, MemberOf(e);
            && |b| == 512 + (m.meta.size + 511) / 512 * 512
            && (b + rest)[..BLOCK] == b[..BLOCK]
            && (b + rest)[BLOCK..BLOCK + m.meta.size] == m.content
            && (b + rest)[|b|..] == rest
  {
    var b, m := EntryBytes(e).value, MemberOf(e);
    var h := b[..BLOCK];
    EntryParts(e);
    Sliced(h, m.content, Zeros(Pad(m.meta.size)), rest);
    RoundedUp(m.meta.size);
  }

  lemma UntarEntry(e: Entry, rest: bytes)
    requires Addressable(e) && EntryBytes(e).Some? && Recoverable(e)
    ensures Untar(EntryBytes(e).value + rest) ==
            match Untar(rest) case None => None case Some(ms) => Some([MemberOf(e)] + ms)
  {
    EntryHeader(e);
    EntryShape(e, rest);
  }

  lemma UntarLostEntry(e: Entry, rest: bytes)
    requires Addressable(e) && EntryBytes(e).Some? && !Recoverable(e)
    ensures var r := Untar(EntryBytes(e).value + rest);
            r.None? || (r.value != [] && r.value[0] != MemberOf(e))
  {
    EntryHeader(e);
    EntryShape(e, rest);
  }

  ghost predicate AllRecoverable(entries: seq<Entry>) {
    forall i | 0 <= i < |entries| :: Recoverable(entries[i])
  }

  lemma RecoverableStep(entries: seq<Entry>)
    requires entries != []
    ensures AllRecoverable(entries) <==> Recoverable(entries[0]) && AllRecoverable(entries[1..])
  {
    assert forall i | 1 <= i < |entries| :: entries[i] == entries[1..][i - 1];
  }

  lemma UntarStep(e: Entry, rest: bytes, ms: seq<Member>)
    requires Addressable(e) && EntryBytes(e).Some?
    ensures Untar(EntryBytes(e).value + rest) == Some([MemberOf(e)] + ms)
       <==> Recoverable(e) && Untar(rest) == Some(ms)
  {
    if Recoverable(e) {
      UntarEntry(e, rest);
      var r := Untar(rest);
      if r.Some? && [MemberOf(e)] + r.value == [MemberOf(e)] + ms {
        assert ([MemberOf(e)] + r.value)[1..] == r.value && ([MemberOf(e)] + ms)[1..] == ms;
      }
    } else {
      UntarLostEntry(e, rest);
    }
  }

  lemma BodySplit(entries: seq<Entry>, end: bytes)
    requires entries != [] && AllAddressable(entries) && Body(entries).Some?
    ensures EntryBytes(entries[0]).Some? && Body(entries[1..]).Some?
    ensures Body(entries).value + end == EntryBytes(entries[0]).value + (Body(entries[1..]).value + end)
  {
    BodyStep(entries, 0);
    assert entries[0..] == entries;
    Regroup(EntryBytes(entries[0]).value, Body(entries[1..]).value, end);
  }

  lemma {:induction false} UntarBody(entries: seq<Entry>, end: bytes)
    requires AllAddressable(entries) && Body(entries).Some? && Untar(end) == Some([])
    ensures Untar(Body(entries).value + end) == Some(MembersOf(entries)) <==> AllRecoverable(entries)
    decreases |entries|
  {
    if entries == [] {
      assert Body(entries).value + end == end;
    } else {
      var e, es := entries[0], entries[1..];
      UntarBody(es, end);
      RecoverableStep(entries);
      BodySplit(entries, end);
      UntarStep(e, Body(es).value + end, MembersOf(es));
    }
  }

  /** Reading back an archive gives exactly the entries, with their modes and owners, if and only
      if every entry is recoverable. */
  lemma RoundTrip(entries: seq<Entry>)
    requires AllAddressable(entries) && Archive(entries).Some?
    ensures Untar(Archive(entries).value) == Some(MembersOf(entries)) <==> AllRecoverable(entries)
  {
    var end := Zeros(2 * BLOCK);
    assert end[..BLOCK] == Zeros(BLOCK) && end[BLOCK..2 * BLOCK] == Zeros(BLOCK);
    UntarBody(entries, end);
  }

  /** Writing fails exactly on an unreadable file or a path no legal split can place. */
  ghost predicate Writable(e: Entry) {
    && (e.File? ==> e.data.Some?)
    && (|EntryPath(e)| <= 100 || exists k :: LegalSplit(EntryPath(e), k))
  }

  lemma EntryWritable(e: Entry)
    requires Addressable(e)
    ensures EntryBytes(e).Some? <==> Writable(e)
  {
    var c := CutFor(EntryPath(e));
    assert c.At? ==> LegalSplit(EntryPath(e), c.i);
  }

  lemma {:induction false} WritesUnless(entries: seq<Entry>)
    requires AllAddressable(entries)
    ensures Archive(entries).Some? <==> forall i | 0 <= i < |entries| :: Writable(entries[i])
    decreases |entries|
  {
    if entries != [] {
      WritesUnless(entries[1..]);
      EntryWritable(entries[0]);
      assert forall i | 0 <= i < |entries[1..]| :: entries[1..][i] == entries[i + 1];
      assert forall i | 1 <= i < |entries| :: entries[i] == entries[1..][i - 1];
    }
  }

  lemma AlignedJoin(a: bytes, b: bytes)
    requires Aligned(a) && Aligned(b)
    ensures Aligned(a + b)
  {
  }

  lemma {:induction false} BodyAligned(entries: seq<Entry>)
    requires AllAddressable(entries) && Body(entries).Some?
    ensures Aligned(Body(entries).value)
    decreases |entries|
  {
    if entries != [] {
      BodyAligned(entries[1..]);
      EntryAligned(entries[0]);
      AlignedJoin(EntryBytes(entries[0]).value, Body(entries[1..]).value);
    }
  }

  lemma ArchiveLength(entries: seq<Entry>)
    requires AllAddressable(entries) && Archive(entries).Some?
    ensures Aligned(Archive(entries).value) && |Archive(entries).value| >= 2 * BLOCK
  {
    BodyAligned(entries);
    AlignedJoin(Body(entries).value, Zeros(2 * BLOCK));
  }
}
