/** Append-only files of one record per line, as the conversation log and the execution log keep them,
    when any append may be cut short by a crash. */
module LineFile {
  import opened Wrappers
  import opened Bytes
  import opened Utf8

  const NEWLINE: char := '\n'

  // ---- Reading ----

  function LineEnd(t: string): (e: nat)
    ensures e <= |t|
  {
    if t == [] || t[0] == NEWLINE then 0 else 1 + LineEnd(t[1..])
  }

  predicate EndsLine(t: string, at: nat, e: nat) {
    at <= e <= |t| && (forall i | at <= i < e :: t[i] != NEWLINE) && (e < |t| ==> t[e] == NEWLINE)
  }

  lemma {:induction false} LineEndIs(t: string)
    ensures EndsLine(t, 0, LineEnd(t))
    decreases |t|
  {
    if t != [] && t[0] != NEWLINE {
      LineEndIs(t[1..]);
      var e := LineEnd(t[1..]);
      forall i | 0 <= i < 1 + e ensures t[i] != NEWLINE {
        assert i > 0 ==> t[i] == t[1..][i - 1];
      }
    }
  }

  /** The first newline is where the line ends. */
  lemma {:induction false} FirstLine(t: string, at: nat, e: nat)
    requires EndsLine(t, at, e)
    ensures LineEnd(t[at..]) == e - at
    decreases e - at
  {
    if at < e {
      assert t[at] != NEWLINE && t[at..][0] == t[at];
      assert t[at..][1..] == t[at + 1..];
      FirstLine(t, at + 1, e);
    } else if e < |t| {
      assert t[at..][0] == t[e];
    }
  }

  function Lines(t: string): seq<string>
    decreases |t|
  {
    if t == [] then []
    else
      var e := LineEnd(t);
      [t[..e]] + if e < |t| then Lines(t[e + 1..]) else []
  }

  /** A line that does not parse is skipped. So is a blank one, which does not parse either. */
  function Entry<R>(parse: string -> Option<R>, line: string): seq<R> {
    match parse(line)
    case None => []
    case Some(r) => [r]
  }

  function Entries<R>(parse: string -> Option<R>, lines: seq<string>): seq<R> {
    if lines == [] then [] else Entries(parse, lines[..|lines| - 1]) + Entry(parse, lines[|lines| - 1])
  }

  function Read<R>(parse: string -> Option<R>, t: string): seq<R> {
    Entries(parse, Lines(t))
  }

  method FindLineEnd(t: string, at: nat) returns (e: nat)
    requires at <= |t|
    ensures at <= e <= |t| && e - at == LineEnd(t[at..])
  {
    e := at;
    while e < |t| && t[e] != NEWLINE
      invariant at <= e <= |t| && (forall i | at <= i < e :: t[i] != NEWLINE)
    {
      e := e + 1;
    }
    FirstLine(t, at, e);
  }

  method SplitLines(t: string) returns (lines: seq<string>)
    ensures lines == Lines(t)
  {
    lines := [];
    var at := 0;
    assert t[0..] == t;
    while at < |t|
      invariant at <= |t| && Lines(t) == lines + Lines(t[at..])
    {
      var e := FindLineEnd(t, at);
      LineStep(t, at, e);
      lines := lines + [t[at..e]];
      at := if e < |t| then e + 1 else |t|;
    }
  }

  lemma LineStep(t: string, at: nat, e: nat)
    requires at <= e <= |t| && at < |t| && e - at == LineEnd(t[at..])
    ensures Lines(t[at..]) == [t[at..e]] + Lines(t[if e < |t| then e + 1 else |t|..])
  {
    hide LineEnd;
    assert t[at..][..e - at] == t[at..e];
    if e < |t| {
      assert t[at..][e - at + 1..] == t[e + 1..];
    }
  }

  method ReadText<R>(parse: string -> Option<R>, t: string) returns (out: seq<R>)
    ensures out == Read(parse, t)
  {
    out := [];
    var lines := SplitLines(t);
    for i := 0 to |lines|
      invariant out == Entries(parse, lines[..i])
    {
      assert lines[..i + 1][..i] == lines[..i];
      match parse(lines[i])
      case None =>
      case Some(r) => out := out + [r];
    }
    assert lines[..|lines|] == lines;
  }

  // ---- Records as text ----

  /** How much of a record and its newline an append leaves in the file: some characters of the record, the
      same and part of the next character, the record without its newline, or all. */
  datatype Cut = Nothing | Part(chars: nat) | Broken(chars: nat, extra: nat) | NoNewline | Whole

  datatype Op<R> = Op(record: R, cut: Cut)

  predicate Fits<R>(ser: R -> string, op: Op<R>) {
    var t := ser(op.record);
    match op.cut
    case Part(n) => 0 < n < |t|
    case Broken(n, k) => n < |t| && 0 < k < Width(t[n])
    case _ => true
  }

  ghost predicate AllFit<R>(ser: R -> string, ops: seq<Op<R>>) {
    forall i | 0 <= i < |ops| :: Fits(ser, ops[i])
  }

  predicate Clean<R>(op: Op<R>) {
    !op.cut.Broken?
  }

  predicate AllClean<R>(ops: seq<Op<R>>) {
    forall i | 0 <= i < |ops| :: Clean(ops[i])
  }

  /** The whole characters of it. */
  function Piece<R>(ser: R -> string, op: Op<R>): string
    requires Fits(ser, op)
  {
    match op.cut
    case Nothing => []
    case Part(n) => ser(op.record)[..n]
    case Broken(n, _) => ser(op.record)[..n]
    case NoNewline => ser(op.record)
    case Whole => ser(op.record) + [NEWLINE]
  }

  function File<R>(ser: R -> string, ops: seq<Op<R>>): string
    requires AllFit(ser, ops)
  {
    if ops == [] then [] else File(ser, ops[..|ops| - 1]) + Piece(ser, ops[|ops| - 1])
  }

  /** Something of the record, and not its newline. */
  predicate Torn<R>(op: Op<R>) {
    op.cut.Part? || op.cut.NoNewline?
  }

  ghost predicate AllTorn<R>(ops: seq<Op<R>>) {
    forall i | 0 <= i < |ops| :: Torn(ops[i])
  }

  /** A record's text is one non-empty line that reads back. */
  predicate ReadsWhole<R(==)>(ser: R -> string, parse: string -> Option<R>, r: R) {
    NEWLINE !in ser(r) && ser(r) != [] && parse(ser(r)) == Some(r)
  }

  /** Part of a record does not read as one. */
  predicate RejectsPart<R>(ser: R -> string, parse: string -> Option<R>, op: Op<R>) {
    op.cut.Part? && Fits(ser, op) ==> parse(Piece(ser, op)).None?
  }

  /** Neither do torn records run together. */
  ghost predicate RejectsJoined<R>(ser: R -> string, parse: string -> Option<R>, ops: seq<Op<R>>) {
    |ops| >= 2 && AllTorn(ops) && AllFit(ser, ops) ==> parse(File(ser, ops)).None?
  }

  ghost predicate Codec<R(!new)>(ser: R -> string, parse: string -> Option<R>) {
    && (forall r :: ReadsWhole(ser, parse, r))
    && (forall op :: RejectsPart(ser, parse, op))
    && (forall ops :: RejectsJoined(ser, parse, ops))
  }

  // ---- What survives ----

  /** The appends that make up the unfinished last line. */
  function Tail<R>(ops: seq<Op<R>>): seq<Op<R>> {
    if ops == [] then []
    else
      var init, last := ops[..|ops| - 1], ops[|ops| - 1];
      match last.cut
      case Nothing => Tail(init)
      case Whole => []
      case _ => Tail(init) + [last]
  }

  /** The records written whole onto a line of their own. */
  function Committed<R>(ops: seq<Op<R>>): seq<R> {
    if ops == [] then []
    else
      var init, last := ops[..|ops| - 1], ops[|ops| - 1];
      if last.cut.Whole? && Tail(init) == [] then Committed(init) + [last.record] else Committed(init)
  }

  /** The unfinished line is one whole record. */
  predicate ShowsTail<R>(ops: seq<Op<R>>) {
    |Tail(ops)| == 1 && Tail(ops)[0].cut.NoNewline?
  }

  /** And the last one, if only its newline is missing. */
  function Shown<R>(ops: seq<Op<R>>): seq<R> {
    Committed(ops) + if ShowsTail(ops) then [Tail(ops)[0].record] else []
  }

  /** What one more append does to what is read. */
  lemma ShownSnoc<R>(ops: seq<Op<R>>, op: Op<R>)
    requires Clean(op)
    ensures Shown(ops + [op]) ==
            if op.cut.Nothing? then Shown(ops)
            else if Tail(ops) != [] then Committed(ops)
            else if op.cut.Part? then Shown(ops)
            else Shown(ops) + [op.record]
    ensures Tail(ops + [op]) == if op.cut.Nothing? then Tail(ops) else if op.cut.Whole? then [] else Tail(ops) + [op]
  {
    assert (ops + [op])[..|ops|] == ops;
  }

  ghost predicate All<R>(p: R -> bool, rs: seq<R>) {
    forall i | 0 <= i < |rs| :: p(rs[i])
  }

  ghost predicate AllRecords<R>(p: R -> bool, ops: seq<Op<R>>) {
    forall i | 0 <= i < |ops| :: p(ops[i].record)
  }

  lemma {:induction false} CommittedWritten<R>(p: R -> bool, ops: seq<Op<R>>)
    requires AllRecords(p, ops)
    ensures All(p, Committed(ops))
    decreases |ops|
  {
    if ops != [] {
      hide Tail;
      CommittedWritten(p, ops[..|ops| - 1]);
    }
  }

  lemma {:induction false} TailWritten<R>(p: R -> bool, ops: seq<Op<R>>)
    requires AllRecords(p, ops)
    ensures AllRecords(p, Tail(ops))
    decreases |ops|
  {
    if ops != [] {
      TailWritten(p, ops[..|ops| - 1]);
    }
  }

  /** Nothing is read that was not written. */
  lemma ShownWritten<R>(p: R -> bool, ops: seq<Op<R>>)
    requires AllRecords(p, ops)
    ensures All(p, Shown(ops))
  {
    hide Tail, Committed;
    CommittedWritten(p, ops);
    TailWritten(p, ops);
  }

  // ---- Reading a file in two parts ----

  predicate Finished(t: string) {
    t == [] || t[|t| - 1] == NEWLINE
  }

  lemma JoinedLine(a: string, b: string)
    requires Finished(a) && a != []
    ensures var e := LineEnd(a);
            && e < |a| && Finished(a[e + 1..]) && LineEnd(a + b) == e
            && (a + b)[..e] == a[..e] && (a + b)[e + 1..] == a[e + 1..] + b
  {
    LineEndIs(a);
    assert EndsLine(a + b, 0, LineEnd(a));
    FirstLine(a + b, 0, LineEnd(a));
    assert (a + b)[0..] == a + b;
  }

  lemma {:induction false} LinesJoin(a: string, b: string)
    requires Finished(a)
    ensures Lines(a + b) == Lines(a) + Lines(b)
    decreases |a|
  {
    if a == [] {
      assert a + b == b;
    } else {
      JoinedLine(a, b);
      LinesJoin(a[LineEnd(a) + 1..], b);
    }
  }

  lemma {:induction false} EntriesJoin<R>(parse: string -> Option<R>, a: seq<string>, b: seq<string>)
    ensures Entries(parse, a + b) == Entries(parse, a) + Entries(parse, b)
    decreases |b|
  {
    if b == [] {
      assert a + b == a;
    } else {
      assert (a + b)[..|a + b| - 1] == a + b[..|b| - 1];
      EntriesJoin(parse, a, b[..|b| - 1]);
    }
  }

  lemma ReadJoin<R>(parse: string -> Option<R>, a: string, b: string)
    requires Finished(a)
    ensures Read(parse, a + b) == Read(parse, a) + Read(parse, b)
  {
    LinesJoin(a, b);
    EntriesJoin(parse, Lines(a), Lines(b));
  }

  lemma OneLine(line: string)
    requires NEWLINE !in line && line != []
    ensures Lines(line) == Lines(line + [NEWLINE]) == [line]
  {
    var t := line + [NEWLINE];
    FirstLine(t, 0, |line|);
    FirstLine(line, 0, |line|);
    assert t[0..] == t && line[0..] == line;
    assert t[..|line|] == line && t[|line| + 1..] == [] && line[..|line|] == line;
  }

  lemma ReadLine<R>(parse: string -> Option<R>, line: string)
    requires NEWLINE !in line && line != []
    ensures Read(parse, line) == Read(parse, line + [NEWLINE]) == Entry(parse, line)
  {
    OneLine(line);
    assert [line][..0] == [];
    assert Entries(parse, [line]) == [] + Entry(parse, line);
  }

  // ---- The unfinished line ----

  lemma {:induction false} TailTorn<R>(ser: R -> string, ops: seq<Op<R>>)
    requires AllFit(ser, ops) && AllClean(ops)
    ensures AllTorn(Tail(ops)) && AllFit(ser, Tail(ops))
    decreases |ops|
  {
    if ops != [] {
      var last := ops[|ops| - 1];
      assert Clean(last) && Fits(ser, last);
      TailTorn(ser, ops[..|ops| - 1]);
    }
  }

  lemma FileSnoc<R>(ser: R -> string, ops: seq<Op<R>>, op: Op<R>)
    requires AllFit(ser, ops) && Fits(ser, op)
    ensures AllFit(ser, ops + [op]) && File(ser, ops + [op]) == File(ser, ops) + Piece(ser, op)
  {
    assert (ops + [op])[..|ops|] == ops;
  }

  lemma {:induction false} TornText<R(!new)>(ser: R -> string, parse: string -> Option<R>, ops: seq<Op<R>>)
    requires Codec(ser, parse) && AllTorn(ops) && AllFit(ser, ops)
    ensures NEWLINE !in File(ser, ops) && (ops != [] ==> File(ser, ops) != [])
    decreases |ops|
  {
    if ops != [] {
      var last := ops[|ops| - 1];
      TornText(ser, parse, ops[..|ops| - 1]);
      assert Torn(last) && Fits(ser, last);
      assert Piece(ser, last) <= ser(last.record);
      assert ReadsWhole(ser, parse, last.record);
    }
  }

  /** What a line made of torn appends reads as. */
  lemma TornReads<R(!new)>(ser: R -> string, parse: string -> Option<R>, ops: seq<Op<R>>)
    requires Codec(ser, parse) && AllTorn(ops) && AllFit(ser, ops)
    ensures var shown := if |ops| == 1 && ops[0].cut.NoNewline? then [ops[0].record] else [];
            Read(parse, File(ser, ops)) == shown && (ops != [] ==> Read(parse, File(ser, ops) + [NEWLINE]) == shown)
  {
    TornText(ser, parse, ops);
    var t := File(ser, ops);
    if ops != [] {
      ReadLine(parse, t);
    }
    if |ops| == 1 {
      var op := ops[0];
      assert Torn(op) && Fits(ser, op);
      assert ops[..0] == [];
      assert t == [] + Piece(ser, op) == Piece(ser, op);
      assert RejectsPart(ser, parse, op);
      if op.cut.NoNewline? {
        assert ReadsWhole(ser, parse, op.record);
      }
    } else {
      assert RejectsJoined(ser, parse, ops);
    }
  }

  // ---- The text reads back as what survives ----

  ghost predicate Split<R>(ser: R -> string, parse: string -> Option<R>, ops: seq<Op<R>>, done: string)
    requires AllFit(ser, ops)
  {
    && Finished(done) && AllFit(ser, Tail(ops))
    && File(ser, ops) == done + File(ser, Tail(ops))
    && Read(parse, done) == Committed(ops)
  }

  lemma Regroup<T>(a: seq<T>, b: seq<T>, c: seq<T>)
    ensures a + b + c == a + (b + c)
  {
  }

  lemma Joined(a: string, b: string)
    requires b != [] && b[|b| - 1] == NEWLINE
    ensures Finished(a + b) && a + b + [] == a + b
  {
  }

  lemma {:induction false} Splits<R(!new)>(ser: R -> string, parse: string -> Option<R>, ops: seq<Op<R>>) returns (done: string)
    requires Codec(ser, parse) && AllFit(ser, ops) && AllClean(ops)
    ensures Split(ser, parse, ops, done)
    decreases |ops|
  {
    if ops == [] {
      done := [];
    } else {
      var init, last := ops[..|ops| - 1], ops[|ops| - 1];
      assert Fits(ser, last) && Clean(last);
      hide Codec, Read, File, Committed, Split;
      done := Splits(ser, parse, init);
      SplitFits(ser, parse, init, done);
      match last.cut
      case Whole =>
        TailTorn(ser, init);
        LineEnds(ser, parse, Tail(init), last.record);
        assert last == Op(last.record, Whole);
        done := CompleteSplits(ser, parse, ops, done, File(ser, Tail(init)) + Piece(ser, last));
      case Nothing => NothingSplits(ser, parse, ops, done);
      case _ => TornSplits(ser, parse, ops, done);
    }
  }

  lemma SplitFits<R>(ser: R -> string, parse: string -> Option<R>, ops: seq<Op<R>>, done: string)
    requires AllFit(ser, ops) && Split(ser, parse, ops, done)
    ensures AllFit(ser, Tail(ops))
  {
  }

  lemma CompleteSplits<R>(ser: R -> string, parse: string -> Option<R>, ops: seq<Op<R>>, before: string, line: string)
      returns (done: string)
    requires AllFit(ser, ops) && ops != [] && ops[|ops| - 1].cut.Whole?
    requires Split(ser, parse, ops[..|ops| - 1], before)
    requires var tail := Tail(ops[..|ops| - 1]);
             && line == File(ser, tail) + Piece(ser, ops[|ops| - 1])
             && Read(parse, line) == if tail == [] then [ops[|ops| - 1].record] else []
    requires line != [] && line[|line| - 1] == NEWLINE
    ensures Split(ser, parse, ops, done)
  {
    var last, tail := ops[|ops| - 1], Tail(ops[..|ops| - 1]);
    done := before + line;
    Regroup(before, File(ser, tail), Piece(ser, last));
    ReadJoin(parse, before, line);
    Joined(before, line);
    assert Tail(ops) == [] && File(ser, Tail(ops)) == [];
  }

  lemma NothingSplits<R>(ser: R -> string, parse: string -> Option<R>, ops: seq<Op<R>>, done: string)
    requires AllFit(ser, ops) && ops != [] && ops[|ops| - 1].cut.Nothing?
    requires Split(ser, parse, ops[..|ops| - 1], done)
    ensures Split(ser, parse, ops, done)
  {
    assert Piece(ser, ops[|ops| - 1]) == [];
    assert File(ser, ops) == File(ser, ops[..|ops| - 1]);
  }

  lemma TornSplits<R>(ser: R -> string, parse: string -> Option<R>, ops: seq<Op<R>>, done: string)
    requires AllFit(ser, ops) && ops != [] && Torn(ops[|ops| - 1])
    requires Split(ser, parse, ops[..|ops| - 1], done)
    ensures Split(ser, parse, ops, done)
  {
    var init, last := ops[..|ops| - 1], ops[|ops| - 1];
    TornTail(ops);
    TornFile(ser, ops);
    hide File, Read, Tail, Committed, Piece;
    FileSnoc(ser, Tail(init), last);
    Regroup(done, File(ser, Tail(init)), Piece(ser, last));
  }

  lemma TornTail<R>(ops: seq<Op<R>>)
    requires ops != [] && Torn(ops[|ops| - 1])
    ensures Tail(ops) == Tail(ops[..|ops| - 1]) + [ops[|ops| - 1]] && Committed(ops) == Committed(ops[..|ops| - 1])
  {
  }

  lemma TornFile<R>(ser: R -> string, ops: seq<Op<R>>)
    requires ops != [] && AllFit(ser, ops)
    ensures AllFit(ser, ops[..|ops| - 1]) && Fits(ser, ops[|ops| - 1])
    ensures File(ser, ops) == File(ser, ops[..|ops| - 1]) + Piece(ser, ops[|ops| - 1])
  {
  }

  /** A complete append ends the line it lands on, and is read back only if that line was empty. */
  lemma LineEnds<R(!new)>(ser: R -> string, parse: string -> Option<R>, tail: seq<Op<R>>, r: R)
    requires Codec(ser, parse) && AllTorn(tail) && AllFit(ser, tail)
    ensures var t := File(ser, tail) + Piece(ser, Op(r, Whole));
            t != [] && t[|t| - 1] == NEWLINE == '\n' && Read(parse, t) == if tail == [] then [r] else []
  {
    assert ReadsWhole(ser, parse, r);
    var whole := Op(r, NoNewline);
    FileSnoc(ser, tail, whole);
    TornReads(ser, parse, tail + [whole]);
    Regroup(File(ser, tail), Piece(ser, whole), [NEWLINE]);
    if tail == [] {
      assert tail + [whole] == [whole];
    }
  }

  lemma TextReadsBack<R(!new)>(ser: R -> string, parse: string -> Option<R>, ops: seq<Op<R>>)
    requires Codec(ser, parse) && AllFit(ser, ops) && AllClean(ops)
    ensures Read(parse, File(ser, ops)) == Shown(ops)
  {
    var done := Splits(ser, parse, ops);
    TailTorn(ser, ops);
    TornReads(ser, parse, Tail(ops));
    ReadJoin(parse, done, File(ser, Tail(ops)));
  }

  // ---- The bytes on disk ----

  function Stored<R>(ser: R -> string, op: Op<R>): bytes
    requires Fits(ser, op)
  {
    EncodeAll(Piece(ser, op)) + if Clean(op) then [] else Encode(ser(op.record)[op.cut.chars])[..op.cut.extra]
  }

  function Disk<R>(ser: R -> string, ops: seq<Op<R>>): bytes
    requires AllFit(ser, ops)
  {
    if ops == [] then [] else Disk(ser, ops[..|ops| - 1]) + Stored(ser, ops[|ops| - 1])
  }

  /** The whole file is decoded before any line is looked at. */
  function ReadFile<R>(parse: string -> Option<R>, b: bytes): Option<seq<R>> {
    match Decode(b)
    case None => None
    case Some(t) => Some(Read(parse, t))
  }

  method ReadAll<R>(parse: string -> Option<R>, b: bytes) returns (out: Option<seq<R>>)
    ensures out == ReadFile(parse, b)
  {
    match Decode(b) {
      case None => return None;
      case Some(t) =>
        var rs := ReadText(parse, t);
        return Some(rs);
    }
  }

  /** What can be had from the file: nothing at all once a cut went through a character. */
  function Recovered<R>(ops: seq<Op<R>>): Option<seq<R>> {
    if AllClean(ops) then Some(Shown(ops)) else None
  }

  lemma {:induction false} CleanDisk<R>(ser: R -> string, ops: seq<Op<R>>)
    requires AllFit(ser, ops) && AllClean(ops)
    ensures Disk(ser, ops) == EncodeAll(File(ser, ops))
    decreases |ops|
  {
    if ops != [] {
      var init, last := ops[..|ops| - 1], ops[|ops| - 1];
      assert Clean(last) && Fits(ser, last);
      CleanDisk(ser, init);
      EncodeJoin(File(ser, init), Piece(ser, last));
    }
  }

  lemma {:induction false} DiskJoin<R>(ser: R -> string, a: seq<Op<R>>, b: seq<Op<R>>)
    requires AllFit(ser, a) && AllFit(ser, b)
    ensures AllFit(ser, a + b) && Disk(ser, a + b) == Disk(ser, a) + Disk(ser, b)
    decreases |b|
  {
    if b == [] {
      assert a + b == a;
    } else {
      var init, last := b[..|b| - 1], b[|b| - 1];
      assert init + [last] == b && Fits(ser, last);
      DiskJoin(ser, a, init);
      DiskJoinStep(ser, a, init, last);
    }
  }

  lemma DiskJoinStep<R>(ser: R -> string, a: seq<Op<R>>, b: seq<Op<R>>, op: Op<R>)
    requires AllFit(ser, a) && AllFit(ser, b) && AllFit(ser, a + b) && Fits(ser, op)
    requires Disk(ser, a + b) == Disk(ser, a) + Disk(ser, b)
    ensures AllFit(ser, b + [op]) && AllFit(ser, a + (b + [op]))
    ensures Disk(ser, a + (b + [op])) == Disk(ser, a) + Disk(ser, b + [op])
  {
    hide AllFit, Disk, Stored, Fits;
    DiskSnoc(ser, a + b, op);
    DiskSnoc(ser, b, op);
    Regroup(a, b, [op]);
    Regroup(Disk(ser, a), Disk(ser, b), Stored(ser, op));
  }

  lemma FreshJoin(a: bytes, b: bytes)
    requires Fresh(a) && Fresh(b)
    ensures Fresh(a + b)
  {
  }

  lemma TextFresh(t: string)
    ensures Fresh(EncodeAll(t))
  {
    if t != [] {
      StartsFresh(t[0], Width(t[0]), EncodeAll(t[1..]));
      assert Encode(t[0])[..Width(t[0])] == Encode(t[0]);
    }
  }

  lemma {:induction false} DiskFresh<R>(ser: R -> string, ops: seq<Op<R>>)
    requires AllFit(ser, ops)
    ensures Fresh(Disk(ser, ops))
    decreases |ops|
  {
    if ops != [] {
      var last := ops[|ops| - 1];
      assert Fits(ser, last);
      DiskFresh(ser, ops[..|ops| - 1]);
      TextFresh(Piece(ser, last));
      if !Clean(last) {
        StartsFresh(ser(last.record)[last.cut.chars], last.cut.extra, []);
        FreshJoin(EncodeAll(Piece(ser, last)), Encode(ser(last.record)[last.cut.chars])[..last.cut.extra]);
      }
      FreshJoin(Disk(ser, ops[..|ops| - 1]), Stored(ser, last));
    }
  }

  /** The first append cut inside a character. */
  lemma {:induction false} FirstBroken<R>(ops: seq<Op<R>>) returns (i: nat)
    requires !AllClean(ops)
    ensures i < |ops| && AllClean(ops[..i]) && !Clean(ops[i])
    decreases |ops|
  {
    var init := ops[..|ops| - 1];
    if AllClean(init) {
      i := |ops| - 1;
      assert forall j | 0 <= j < |init| :: Clean(ops[j]) by {
        forall j | 0 <= j < |init| ensures Clean(ops[j]) {
          assert init[j] == ops[j];
        }
      }
    } else {
      i := FirstBroken(init);
      assert init[..i] == ops[..i];
    }
  }

  lemma BrokenSpoils<R>(ser: R -> string, a: seq<Op<R>>, op: Op<R>, b: seq<Op<R>>)
    requires AllFit(ser, a) && AllClean(a) && Fits(ser, op) && !Clean(op) && AllFit(ser, b)
    ensures AllFit(ser, a + [op] + b) && Decode(Disk(ser, a + [op] + b)) == None
  {
    hide File, Decode, Encode, EncodeAll, Fresh, Width;
    var t, c, k := ser(op.record)[..op.cut.chars], ser(op.record)[op.cut.chars], op.cut.extra;
    DiskSnoc(ser, a, op);
    DiskJoin(ser, a + [op], b);
    hide Disk;
    CleanDisk(ser, a);
    EncodeJoin(File(ser, a), t);
    DiskFresh(ser, b);
    PartSpoils(File(ser, a) + t, c, k, Disk(ser, b));
    BrokenParts(EncodeAll(File(ser, a)), EncodeAll(t), Encode(c)[..k], Disk(ser, b));
  }

  lemma DiskSnoc<R>(ser: R -> string, ops: seq<Op<R>>, op: Op<R>)
    requires AllFit(ser, ops) && Fits(ser, op)
    ensures AllFit(ser, ops + [op]) && Disk(ser, ops + [op]) == Disk(ser, ops) + Stored(ser, op)
  {
    assert (ops + [op])[..|ops|] == ops;
  }

  lemma BrokenParts(a: bytes, t: bytes, c: bytes, b: bytes)
    ensures a + (t + c) + b == a + t + (c + b)
  {
  }

  /** Whatever was cut short, the file reads back as exactly the survivors, in order; unless some cut went
      through a character, when it does not read back at all. */
  lemma ReadsBack<R(!new)>(ser: R -> string, parse: string -> Option<R>, ops: seq<Op<R>>)
    requires Codec(ser, parse) && AllFit(ser, ops)
    ensures ReadFile(parse, Disk(ser, ops)) == Recovered(ops)
  {
    hide File, Decode, EncodeAll, Read, Disk, Shown, Codec;
    if AllClean(ops) {
      CleanDisk(ser, ops);
      RoundTrip(File(ser, ops));
      TextReadsBack(ser, parse, ops);
    } else {
      var i := FirstBroken(ops);
      var a, b := ops[..i], ops[i + 1..];
      assert a + [ops[i]] + b == ops;
      BrokenSpoils(ser, a, ops[i], b);
    }
  }

  // ---- How much a crash can cost ----

  function Records<R>(ops: seq<Op<R>>): seq<R> {
    if ops == [] then [] else Records(ops[..|ops| - 1]) + [ops[|ops| - 1].record]
  }

  ghost predicate AllWhole<R>(ops: seq<Op<R>>) {
    forall i | 0 <= i < |ops| :: ops[i].cut.Whole?
  }

  lemma {:induction false} WholeAdds<R>(ops: seq<Op<R>>, more: seq<Op<R>>)
    requires AllWhole(more) && (more == [] || Tail(ops) == [])
    ensures Committed(ops + more) == Committed(ops) + Records(more)
    ensures Tail(ops + more) == if more == [] then Tail(ops) else []
    decreases |more|
  {
    if more == [] {
      assert ops + more == ops;
    } else {
      var init := more[..|more| - 1];
      WholeAdds(ops, init);
      assert (ops + more)[..|ops + more| - 1] == ops + init;
    }
  }

  lemma TornAdds<R>(before: seq<Op<R>>, torn: Op<R>)
    requires AllWhole(before) && Torn(torn)
    ensures Committed(before + [torn]) == Records(before) && Tail(before + [torn]) == [torn]
  {
    assert (before + [torn])[..|before|] == before && [] + before == before;
    WholeAdds([], before);
  }

  lemma Swallowed<R>(ops: seq<Op<R>>, next: Op<R>)
    requires Tail(ops) != [] && next.cut.Whole?
    ensures Committed(ops + [next]) == Committed(ops) && Tail(ops + [next]) == []
  {
    assert (ops + [next])[..|ops|] == ops;
  }

  lemma CrashShows<R>(ops: seq<Op<R>>, after: seq<Op<R>>)
    requires Tail(ops) != [] && AllWhole(after) && after != []
    ensures Shown(ops + after) == Committed(ops) + Records(after[1..])
  {
    Swallowed(ops, after[0]);
    assert ops + [after[0]] + after[1..] == ops + after;
    WholeAdds(ops + [after[0]], after[1..]);
  }

  /** One append cut short: all earlier records read back, and of the later ones all but the first; but
      nothing, if the cut went through a character. */
  lemma OneCrash<R(!new)>(ser: R -> string, parse: string -> Option<R>, before: seq<Op<R>>, torn: Op<R>, after: seq<Op<R>>)
    requires Codec(ser, parse) && AllWhole(before) && AllWhole(after)
    requires Fits(ser, torn) && !torn.cut.Nothing? && !torn.cut.Whole?
    ensures AllFit(ser, before + [torn] + after)
    ensures ReadFile(parse, Disk(ser, before + [torn] + after)) ==
            if torn.cut.Broken? then None
            else Some(Records(before) + if after != [] then Records(after[1..])
                                        else if torn.cut.NoNewline? then [torn.record] else [])
  {
    CrashFits(ser, before, torn, after);
    hide *;
    CrashRecovers(before, torn, after);
    ReadsBack(ser, parse, before + [torn] + after);
  }

  lemma CrashFits<R>(ser: R -> string, before: seq<Op<R>>, torn: Op<R>, after: seq<Op<R>>)
    requires AllWhole(before) && AllWhole(after) && Fits(ser, torn)
    ensures AllFit(ser, before + [torn] + after)
  {
  }

  lemma CrashRecovers<R>(before: seq<Op<R>>, torn: Op<R>, after: seq<Op<R>>)
    requires AllWhole(before) && AllWhole(after) && !torn.cut.Nothing? && !torn.cut.Whole?
    ensures Recovered(before + [torn] + after) ==
            if torn.cut.Broken? then None
            else Some(Records(before) + if after != [] then Records(after[1..])
                                        else if torn.cut.NoNewline? then [torn.record] else [])
  {
    var ops := before + [torn] + after;
    assert ops[|before|] == torn;
    if !torn.cut.Broken? {
      CrashClean(before, torn, after);
      hide AllClean, Shown;
      CrashShown(before, torn, after);
    }
  }

  lemma CrashClean<R>(before: seq<Op<R>>, torn: Op<R>, after: seq<Op<R>>)
    requires AllWhole(before) && AllWhole(after) && Clean(torn)
    ensures AllClean(before + [torn] + after)
  {
  }

  lemma CrashShown<R>(before: seq<Op<R>>, torn: Op<R>, after: seq<Op<R>>)
    requires AllWhole(before) && AllWhole(after) && Torn(torn)
    ensures Shown(before + [torn] + after) ==
            Records(before) + if after != [] then Records(after[1..]) else if torn.cut.NoNewline? then [torn.record] else []
  {
    TornAdds(before, torn);
    if after == [] {
      assert before + [torn] + after == before + [torn];
    } else {
      hide Shown, Committed, Tail;
      CrashShows(before + [torn], after);
    }
  }

  function Crashes<R>(ops: seq<Op<R>>): nat {
    if ops == [] then 0 else Crashes(ops[..|ops| - 1]) + if ops[|ops| - 1].cut.Whole? then 0 else 1
  }

  lemma {:induction false} CommittedCount<R>(ops: seq<Op<R>>)
    ensures |ops| + (if Tail(ops) == [] then 0 else 1) <= |Committed(ops)| + 2 * Crashes(ops)
    decreases |ops|
  {
    if ops != [] {
      CommittedCount(ops[..|ops| - 1]);
    }
  }

  /** However many crashes there are, each costs at most two records, if no cut went through a character. */
  lemma LossBound<R(!new)>(ser: R -> string, parse: string -> Option<R>, ops: seq<Op<R>>)
    requires Codec(ser, parse) && AllFit(ser, ops)
    ensures match ReadFile(parse, Disk(ser, ops))
            case Some(rs) => AllClean(ops) && |ops| <= |rs| + 2 * Crashes(ops)
            case None => !AllClean(ops)
  {
    ReadsBack(ser, parse, ops);
    CommittedCount(ops);
  }

  // ---- The assumptions about the text can be met ----

  function Accents(n: nat): string {
    seq(n, _ => '\U{e9}')
  }

  function Braced(n: nat): string {
    "{" + Accents(n) + "}"
  }

  function Unbraced(t: string): Option<nat> {
    if |t| >= 2 && t == Braced(|t| - 2) then Some(|t| - 2) else None
  }

  lemma {:induction false} BracedText(ops: seq<Op<nat>>)
    requires AllTorn(ops) && AllFit(Braced, ops) && |ops| >= 1
    ensures File(Braced, ops) != [] && (|ops| >= 2 ==> Unbraced(File(Braced, ops)) == None)
    decreases |ops|
  {
    var init, last := ops[..|ops| - 1], ops[|ops| - 1];
    assert Torn(last) && Fits(Braced, last);
    assert Piece(Braced, last)[0] == '{';
    if |ops| >= 2 {
      BracedText(init);
      var t := File(Braced, ops);
      assert t[|File(Braced, init)|] == '{';
    }
  }

  lemma CodecsExist()
    ensures Codec(Braced, Unbraced)
  {
    forall ops: seq<Op<nat>> ensures RejectsJoined(Braced, Unbraced, ops) {
      if |ops| >= 2 && AllTorn(ops) && AllFit(Braced, ops) {
        BracedText(ops);
      }
    }
    forall op: Op<nat> ensures RejectsPart(Braced, Unbraced, op) {
      if op.cut.Part? && Fits(Braced, op) {
        var t := Piece(Braced, op);
        assert t[|t| - 1] != '}';
      }
    }
    forall n: nat ensures ReadsWhole(Braced, Unbraced, n) {
    }
  }

  /** A cut between characters costs the cut record; a cut one byte further on costs the whole file. */
  lemma OneByteFurther()
    ensures var cut: seq<Op<nat>> := [Op(0, Whole), Op(1, Part(1))];
            var further: seq<Op<nat>> := [Op(0, Whole), Op(1, Broken(1, 1))];
            && Codec(Braced, Unbraced) && AllFit(Braced, cut) && AllFit(Braced, further)
            && ReadFile(Unbraced, Disk(Braced, cut)) == Some([0])
            && ReadFile(Unbraced, Disk(Braced, further)) == None
  {
    CodecsExist();
    hide Codec, Disk, ReadFile;
    var first: seq<Op<nat>> := [Op(0, Whole)];
    assert Braced(1)[1] == '\U{e9}' && Width('\U{e9}') == 2;
    OneCrash(Braced, Unbraced, first, Op(1, Part(1)), []);
    OneCrash(Braced, Unbraced, first, Op(1, Broken(1, 1)), []);
    assert first + [Op(1, Part(1))] + [] == [Op(0, Whole), Op(1, Part(1))];
    assert first + [Op(1, Broken(1, 1))] + [] == [Op(0, Whole), Op(1, Broken(1, 1))];
    assert first[..0] == [];
    assert Records(first) + [] == [0];
  }
}
