/** The frontmatter scanner of instruction files, over bytes. */
module FrontmatterScan {
  import opened Bytes
  import opened Wrappers

  const LF: byte := 10
  const CR: byte := 13
  const BOM: bytes := [0xEF, 0xBB, 0xBF]
  const DASHES: bytes := [45, 45, 45]
  const SCAN_LIMIT: nat := 4096

  /** The pieces of an input with frontmatter, in order. */
  datatype Parts = Parts(bom: bytes, opener: bytes, yaml: bytes, closer: bytes, body: bytes) {
    function Whole(): bytes {
      bom + opener + yaml + closer + body
    }
  }

  /** What the YAML library makes of the text: a mapping with its fields, some other value, or an error. */
  datatype Yaml<F> = Mapping(fields: F) | NotMapping | Malformed

  // ---- The format ----

  predicate CloserLine(line: bytes) {
    line == DASHES || line == DASHES + [CR]
  }

  predicate LineStart(y: bytes, i: int) {
    i == 0 || (0 < i <= |y| && y[i - 1] == LF)
  }

  ghost predicate CompleteLine(y: bytes, i: int, j: int) {
    0 <= i <= j < |y| && LineStart(y, i) && y[j] == LF && forall k | i <= k < j :: y[k] != LF
  }

  /** Whole lines only, none of them a closer. */
  ghost predicate YamlText(y: bytes) {
    LineStart(y, |y|) && forall i, j :: CompleteLine(y, i, j) ==> !CloserLine(y[i..j])
  }

  predicate Opener(o: bytes) {
    o == DASHES + [LF] || o == DASHES + [CR, LF]
  }

  /** A closer line inside the scan, or the last line of an input shorter than the scan. */
  predicate Closes(p: Parts) {
    var n, head := |p.closer|, |p.opener| + |p.yaml| + |p.closer|;
    || (n > 0 && p.closer[n - 1] == LF && CloserLine(p.closer[..n - 1]) && head <= SCAN_LIMIT)
    || (CloserLine(p.closer) && p.body == [] && head < SCAN_LIMIT)
  }

  ghost predicate WellFormed(p: Parts) {
    (p.bom == [] || p.bom == BOM) && Opener(p.opener) && YamlText(p.yaml) && Closes(p)
  }

  /** `p` are the parts of `input`. */
  ghost predicate Splits(input: bytes, p: Parts) {
    WellFormed(p) && p.Whole() == input
  }

  // ---- There is at most one way to split ----

  lemma BomDetermined(input: bytes, p: Parts)
    requires Splits(input, p)
    ensures p.bom == if BOM <= input then BOM else []
  {
    if p.bom == [] {
      assert input[0] == p.opener[0] == 45;
    } else {
      assert input[..3] == BOM;
    }
  }

  function Rest(p: Parts): bytes {
    p.yaml + p.closer + p.body
  }

  lemma Prefixes(p: Parts)
    ensures var n, m := |p.bom|, |p.bom| + |p.opener|;
            p.Whole()[..n] == p.bom && p.Whole()[n..m] == p.opener && p.Whole()[m..] == Rest(p)
  {
  }

  lemma OpenerDetermined(input: bytes, p: Parts, q: Parts)
    requires Splits(input, p) && Splits(input, q)
    ensures p.bom == q.bom && p.opener == q.opener && Rest(p) == Rest(q)
  {
    BomDetermined(input, p);
    BomDetermined(input, q);
    Prefixes(p);
    Prefixes(q);
    SameOpener(input[|p.bom|..], p.opener, q.opener);
  }

  lemma SameOpener(s: bytes, o: bytes, u: bytes)
    requires Opener(o) && Opener(u) && |o| <= |s| && |u| <= |s| && s[..|o|] == o && s[..|u|] == u
    ensures o == u
  {
    assert s[..|o|][3] == s[3] == s[..|u|][3];
  }

  lemma CloserHasNoLf(p: Parts)
    requires Closes(p)
    ensures forall k | 0 <= k < |p.closer| - 1 :: p.closer[k] != LF
    ensures |p.closer| >= 3
    ensures p.closer[|p.closer| - 1] == LF || p.body == []
    ensures p.closer[|p.closer| - 1] == LF ==> CloserLine(p.closer[..|p.closer| - 1])
    ensures p.closer[|p.closer| - 1] != LF ==> CloserLine(p.closer)
  {
  }

  /** YAML that outlasts another split's YAML ends after that split's closer line. */
  lemma ReachesLf(p: Parts, q: Parts)
    requires WellFormed(p) && WellFormed(q) && Rest(p) == Rest(q) && |p.yaml| < |q.yaml|
    ensures p.closer[|p.closer| - 1] == LF && |p.yaml| + |p.closer| <= |q.yaml|
  {
    CloserHasNoLf(p);
    RestAt(p);
    RestAt(q);
    var e := |q.yaml| - 1 - |p.yaml|;
    assert Rest(q)[|q.yaml| - 1] == LF;
    assert e < |p.closer| ==> Rest(p)[|p.yaml| + e] == p.closer[e];
  }

  /** The line at the end of one split's YAML cannot lie inside another's. */
  lemma NoShorterYaml(p: Parts, q: Parts)
    requires WellFormed(p) && WellFormed(q)
    requires Rest(p) == Rest(q)
    ensures |p.yaml| >= |q.yaml|
  {
    if |p.yaml| < |q.yaml| {
      CloserHasNoLf(p);
      ReachesLf(p, q);
      assert Rest(p) == q.yaml + (q.closer + q.body);
      CloserInRegion(q.yaml, q.closer + q.body, p);
    }
  }

  lemma CloserDetermined(p: Parts, q: Parts)
    requires Closes(p) && Closes(q) && p.closer + p.body == q.closer + q.body
    ensures p.closer == q.closer && p.body == q.body
  {
    CloserHasNoLf(p);
    CloserHasNoLf(q);
    var t, u := p.closer + p.body, q.closer + q.body;
    var m, n := |p.closer|, |q.closer|;
    assert forall k | 0 <= k < m :: t[k] == p.closer[k];
    assert forall k | 0 <= k < n :: u[k] == q.closer[k];
    assert forall k | 0 <= k < m && k < n :: p.closer[k] == q.closer[k];
    assert t[..m] == p.closer && u[..n] == q.closer && t[m..] == p.body && u[n..] == q.body;
  }

  lemma SplitUnique(input: bytes, p: Parts, q: Parts)
    requires Splits(input, p) && Splits(input, q)
    ensures p == q
  {
    OpenerDetermined(input, p, q);
    NoShorterYaml(p, q);
    NoShorterYaml(q, p);
    var t, u := Rest(p), Rest(q);
    var n := |p.yaml|;
    assert t[..n] == p.yaml && u[..n] == q.yaml;
    assert t[n..] == p.closer + p.body && u[n..] == q.closer + q.body;
    CloserDetermined(p, q);
  }

  ghost function TheSplit(input: bytes): Option<Parts> {
    if p :| Splits(input, p) then Some(p) else None
  }

  // ---- The scan ----

  /** No complete line of `y` that ends before `n` is a closer. */
  ghost predicate NoCloserBefore(y: bytes, n: int) {
    forall i, j :: CompleteLine(y, i, j) && j < n ==> !CloserLine(y[i..j])
  }

  ghost predicate NoLfFrom(y: bytes, i: int, n: int) {
    forall k | i <= k < n && 0 <= k < |y| :: y[k] != LF
  }

  lemma LineStartsAt(y: bytes, i: int, j: int, s: int)
    requires CompleteLine(y, i, j) && LineStart(y, s) && NoLfFrom(y, s, j) && 0 <= s <= j
    ensures i == s
  {
    assert s == 0 || y[s - 1] == LF;
    assert i == 0 || y[i - 1] == LF;
  }

  /** The first closer line ended by a newline, as (start, end); else where the last line starts. */
  method FindCloser(region: bytes) returns (found: Option<(nat, nat)>, lineStart: nat)
    ensures lineStart <= |region| && LineStart(region, lineStart)
    ensures match found
            case Some((s, e)) =>
              && s < e <= |region| && s == lineStart && CompleteLine(region, s, e - 1)
              && CloserLine(region[s..e - 1]) && NoCloserBefore(region, s)
            case None => NoLfFrom(region, lineStart, |region|) && NoCloserBefore(region, |region|)
  {
    lineStart := 0;
    for idx := 0 to |region|
      invariant lineStart <= idx && LineStart(region, lineStart)
      invariant NoLfFrom(region, lineStart, idx) && NoCloserBefore(region, lineStart)
    {
      if region[idx] == LF {
        var line := region[lineStart..idx];
        var trimmed := if line != [] && line[|line| - 1] == CR then line[..|line| - 1] else line;
        TrimmedCloser(line);
        if trimmed == DASHES {
          return Some((lineStart, idx + 1)), lineStart;
        }
        forall i, j | CompleteLine(region, i, j) && j < idx + 1 ensures !CloserLine(region[i..j]) {
          if j >= lineStart {
            assert j == idx;
            LineStartsAt(region, i, j, lineStart);
          }
        }
        lineStart := idx + 1;
      }
    }
    forall i, j | CompleteLine(region, i, j) ensures j < lineStart {
      assert region[j] == LF;
    }
    return None, lineStart;
  }

  lemma TrimmedCloser(line: bytes)
    ensures CloserLine(line) <==>
            (if line != [] && line[|line| - 1] == CR then line[..|line| - 1] else line) == DASHES
  {
    if line != [] && line[|line| - 1] == CR {
      assert line == line[..|line| - 1] + [CR];
      assert line[..|line| - 1] == DASHES ==> line == DASHES + [CR];
      assert line == DASHES + [CR] ==> line[..3] == DASHES;
    }
  }

  /** Lines wholly inside a prefix of whole lines are lines of the text. */
  lemma PrefixYaml(region: bytes, s: nat)
    requires s <= |region| && LineStart(region, s) && NoCloserBefore(region, s)
    ensures YamlText(region[..s])
  {
    var y := region[..s];
    forall i, j | CompleteLine(y, i, j) ensures !CloserLine(y[i..j]) {
      assert CompleteLine(region, i, j);
      assert y[i..j] == region[i..j];
    }
  }

  lemma RestAt(p: Parts)
    ensures forall k | 0 <= k < |p.yaml| :: Rest(p)[k] == p.yaml[k]
    ensures forall k | 0 <= k < |p.closer| :: Rest(p)[|p.yaml| + k] == p.closer[k]
  {
  }

  lemma LineInRegion(region: bytes, yaml: bytes, line: bytes)
    requires LineStart(yaml, |yaml|) && |yaml| + |line| < |region|
    requires forall k | 0 <= k < |yaml| :: region[k] == yaml[k]
    requires forall k | 0 <= k < |line| :: region[|yaml| + k] == line[k] && line[k] != LF
    requires region[|yaml| + |line|] == LF
    ensures CompleteLine(region, |yaml|, |yaml| + |line|) && region[|yaml|..|yaml| + |line|] == line
  {
    forall k | |yaml| <= k < |yaml| + |line| ensures region[k] != LF {
      assert region[|yaml| + (k - |yaml|)] == line[k - |yaml|];
    }
  }

  lemma CloserInRegion(region: bytes, after: bytes, p: Parts)
    requires WellFormed(p) && Rest(p) == region + after && p.closer[|p.closer| - 1] == LF
    requires |p.yaml| + |p.closer| <= |region|
    ensures CompleteLine(region, |p.yaml|, |p.yaml| + |p.closer| - 1)
    ensures region[|p.yaml|..|p.yaml| + |p.closer| - 1] == p.closer[..|p.closer| - 1]
  {
    CloserHasNoLf(p);
    var line := p.closer[..|p.closer| - 1];
    PrefixOfRest(region, after, p);
    LineInRegion(region, p.yaml, line);
  }

  lemma PrefixOfRest(region: bytes, after: bytes, p: Parts)
    requires Rest(p) == region + after && |p.yaml| + |p.closer| <= |region|
    ensures forall k | 0 <= k < |p.yaml| :: region[k] == p.yaml[k]
    ensures forall k | 0 <= k < |p.closer| :: region[|p.yaml| + k] == p.closer[k]
  {
    hide WellFormed;
    RestAt(p);
    var t := region + after;
    assert forall k | 0 <= k < |region| :: t[k] == region[k];
  }

  /** A split of the input shows in the scanned region as a closer line, or as its last line. */
  lemma SplitShows(region: bytes, after: bytes, p: Parts)
    requires WellFormed(p) && Rest(p) == region + after
    requires |p.opener| + |region| <= SCAN_LIMIT
    requires after != [] ==> |p.opener| + |region| == SCAN_LIMIT
    ensures p.closer[|p.closer| - 1] == LF ==>
              CompleteLine(region, |p.yaml|, |p.yaml| + |p.closer| - 1)
              && CloserLine(region[|p.yaml|..|p.yaml| + |p.closer| - 1])
    ensures p.closer[|p.closer| - 1] != LF ==>
              region == p.yaml + p.closer && after == [] && |p.opener| + |region| < SCAN_LIMIT
  {
    CloserHasNoLf(p);
    if p.closer[|p.closer| - 1] == LF {
      CloserInRegion(region, after, p);
    } else {
      assert Rest(p) == p.yaml + p.closer;
    }
  }

  lemma NothingToFind(input: bytes, start: nat, openerLen: nat, scanEnd: nat, lineStart: nat)
    requires Scanned(input, start, openerLen, scanEnd)
    requires NotFound(input[start..][openerLen..scanEnd], openerLen, lineStart)
    ensures TheSplit(input) == None
  {
    if p :| Splits(input, p) {
      var afterBom := input[start..];
      var region, after := afterBom[openerLen..scanEnd], afterBom[scanEnd..];
      BomDetermined(input, p);
      Prefixes(p);
      assert afterBom[..|p.opener|] == p.opener;
      SameOpener(afterBom, p.opener, afterBom[..openerLen]);
      TailSplits(input, start, openerLen, scanEnd);
      NoSplitIn(region, after, p, lineStart);
    }
  }

  lemma TailSplits(input: bytes, start: nat, a: nat, b: nat)
    requires a <= b && start + b <= |input|
    ensures input[start + a..] == input[start..][a..b] + input[start..][b..]
  {
  }

  /** Nothing was found, so no parts make up the text. */
  lemma NoSplitIn(region: bytes, after: bytes, p: Parts, lineStart: nat)
    requires WellFormed(p)
    requires |p.opener| + |region| <= SCAN_LIMIT
    requires after != [] ==> |p.opener| + |region| == SCAN_LIMIT
    requires NotFound(region, |p.opener|, lineStart)
    ensures Rest(p) != region + after
  {
    CloserHasNoLf(p);
    if Rest(p) == region + after {
      SplitShows(region, after, p);
      if p.closer[|p.closer| - 1] != LF {
        LastLine(p.yaml, p.closer, lineStart);
      }
    }
  }

  lemma LastLine(yaml: bytes, closer: bytes, lineStart: nat)
    requires LineStart(yaml, |yaml|) && CloserLine(closer)
    requires var r := yaml + closer; lineStart <= |r| && LineStart(r, lineStart) && NoLfFrom(r, lineStart, |r|)
    ensures (yaml + closer)[lineStart..] == closer
  {
    var r := yaml + closer;
    assert yaml == [] || r[|yaml| - 1] == LF;
    assert forall k | |yaml| <= k < |r| :: r[k] == closer[k - |yaml|];
    assert forall k | 0 <= k < |closer| :: closer[k] != LF;
  }

  /** The closer, ended by a newline or, in a region cut short by the end of the input, by that end. */
  method FindAnyCloser(region: bytes, openerLen: nat) returns (found: Option<(nat, nat)>, ghost lineStart: nat)
    ensures match found
            case Some((s, e)) => FoundAt(region, openerLen, s, e)
            case None => NotFound(region, openerLen, lineStart)
  {
    var line: nat;
    found, line := FindCloser(region);
    lineStart := line;
    if found.None? && |region| < SCAN_LIMIT - openerLen {
      var last := region[line..];
      TrimmedCloser(last);
      if (if last != [] && last[|last| - 1] == CR then last[..|last| - 1] else last) == DASHES {
        found := Some((line, |region|));
        NoCloserUpTo(region, line);
      }
    }
  }

  ghost predicate FoundAt(region: bytes, openerLen: nat, s: nat, e: nat) {
    && s <= e <= |region| && LineStart(region, s) && NoCloserBefore(region, s)
    && ((s < e && region[e - 1] == LF && CloserLine(region[s..e - 1]))
        || (CloserLine(region[s..e]) && e == |region| < SCAN_LIMIT - openerLen))
  }

  ghost predicate NotFound(region: bytes, openerLen: nat, lineStart: nat) {
    && lineStart <= |region| && LineStart(region, lineStart) && NoLfFrom(region, lineStart, |region|)
    && NoCloserBefore(region, |region|)
    && !(|region| < SCAN_LIMIT - openerLen && CloserLine(region[lineStart..]))
  }

  method Locate(input: bytes) returns (r: Option<Parts>)
    ensures r == TheSplit(input)
  {
    var start := if BOM <= input then 3 else 0;
    var afterBom := input[start..];
    var openerLen: nat;
    if DASHES + [LF] <= afterBom {
      openerLen := 4;
    } else if DASHES + [CR, LF] <= afterBom {
      openerLen := 5;
    } else {
      NoOpener(input, start);
      return None;
    }
    assert Opener(afterBom[..openerLen]);
    var scanEnd := if |afterBom| < SCAN_LIMIT then |afterBom| else SCAN_LIMIT;
    var region := afterBom[openerLen..scanEnd];
    var found, lineStart := FindAnyCloser(region, openerLen);
    if found.None? {
      NothingToFind(input, start, openerLen, scanEnd, lineStart);
      return None;
    }
    Found(input, start, openerLen, scanEnd, found.value.0, found.value.1);
    r := Some(PartsAt(input, start, openerLen, scanEnd, found.value.0, found.value.1));
  }

  function PartsAt(input: bytes, start: nat, openerLen: nat, scanEnd: nat, s: nat, e: nat): Parts
    requires start + scanEnd <= |input| && openerLen <= scanEnd && s <= e <= scanEnd - openerLen
  {
    var afterBom := input[start..];
    var region := afterBom[openerLen..scanEnd];
    Parts(input[..start], afterBom[..openerLen], region[..s], region[s..e], afterBom[openerLen + e..])
  }

  ghost predicate Scanned(input: bytes, start: nat, openerLen: nat, scanEnd: nat) {
    && start == (if BOM <= input then 3 else 0)
    && scanEnd == (if |input| - start < SCAN_LIMIT then |input| - start else SCAN_LIMIT)
    && openerLen <= scanEnd && Opener(input[start..][..openerLen])
  }

  lemma Found(input: bytes, start: nat, openerLen: nat, scanEnd: nat, s: nat, e: nat)
    requires Scanned(input, start, openerLen, scanEnd)
    requires FoundAt(input[start..][openerLen..scanEnd], openerLen, s, e)
    ensures TheSplit(input) == Some(PartsAt(input, start, openerLen, scanEnd, s, e))
  {
    var p := PartsAt(input, start, openerLen, scanEnd, s, e);
    var region := input[start..][openerLen..scanEnd];
    PrefixYaml(region, s);
    Reassemble(input, start, openerLen, scanEnd, s, e);
    FoundCloses(region, openerLen, s, e, p);
    Chosen(input, p);
  }

  lemma FoundCloses(region: bytes, openerLen: nat, s: nat, e: nat, p: Parts)
    requires FoundAt(region, openerLen, s, e) && openerLen + |region| <= SCAN_LIMIT
    requires |p.opener| == openerLen && |p.yaml| == s && p.closer == region[s..e]
    requires e == |region| && |region| < SCAN_LIMIT - openerLen ==> p.body == []
    ensures Closes(p)
  {
    if s < e {
      assert p.closer[..|p.closer| - 1] == region[s..e - 1];
    }
  }

  lemma NoCloserUpTo(region: bytes, s: nat)
    requires NoCloserBefore(region, |region|) || NoCloserBefore(region, s)
    ensures NoCloserBefore(region, s)
  {
  }

  lemma Reassemble(input: bytes, start: nat, openerLen: nat, scanEnd: nat, s: nat, e: nat)
    requires start + scanEnd <= |input| && openerLen <= scanEnd && s <= e <= scanEnd - openerLen
    ensures var afterBom := input[start..];
            var region := afterBom[openerLen..scanEnd];
            input[..start] + afterBom[..openerLen] + region[..s] + region[s..e] + afterBom[openerLen + e..] == input
  {
  }

  lemma NoOpener(input: bytes, start: nat)
    requires start == (if BOM <= input then 3 else 0)
    requires !(DASHES + [LF] <= input[start..]) && !(DASHES + [CR, LF] <= input[start..])
    ensures TheSplit(input) == None
  {
    if p :| Splits(input, p) {
      BomDetermined(input, p);
      Prefixes(p);
    }
  }

  lemma Chosen(input: bytes, p: Parts)
    requires Splits(input, p)
    ensures TheSplit(input) == Some(p)
  {
    var q := TheSplit(input).value;
    SplitUnique(input, p, q);
  }

  // ---- Stripping ----

  /** The body and the fields; the input unchanged where there is no frontmatter or its YAML is malformed. */
  ghost function Stripped<F>(input: bytes, yaml: bytes -> Yaml<F>, default: F): (bytes, F) {
    match TheSplit(input)
    case None => (input, default)
    case Some(p) =>
      match yaml(p.yaml)
      case Mapping(fields) => (p.body, fields)
      case NotMapping => (p.body, default)
      case Malformed => (input, default)
  }

  method StripFrontmatter<F>(input: bytes, yaml: bytes -> Yaml<F>, default: F) returns (body: bytes, fields: F)
    ensures (forall p :: !Splits(input, p)) ==> body == input && fields == default
    ensures forall p | Splits(input, p) ::
              match yaml(p.yaml)
              case Malformed => body == input && fields == default
              case NotMapping => body == input[|p.bom + p.opener + p.yaml + p.closer|..] && fields == default
              case Mapping(f) => body == input[|p.bom + p.opener + p.yaml + p.closer|..] && fields == f
    ensures (body, fields) == Stripped(input, yaml, default)
  {
    var split := Locate(input);
    forall p | Splits(input, p) ensures split == Some(p) && p.body == input[|p.bom + p.opener + p.yaml + p.closer|..] {
      Chosen(input, p);
      assert input == p.bom + p.opener + p.yaml + p.closer + p.body;
    }
    if split.None? {
      return input, default;
    }
    hide Splits;
    match yaml(split.value.yaml)
    case Mapping(f) => return split.value.body, f;
    case NotMapping => return split.value.body, default;
    case Malformed => return input, default;
  }

  /** Composing YAML and a body and stripping returns both, for every opener and closer. */
  lemma ComposeThenStrip<F>(p: Parts, yaml: bytes -> Yaml<F>, default: F)
    requires WellFormed(p) && yaml(p.yaml).Mapping?
    ensures Stripped(p.Whole(), yaml, default) == (p.body, yaml(p.yaml).fields)
  {
    Chosen(p.Whole(), p);
  }

  /** In plain terms: perhaps a byte-order mark; three dashes, lines none of which is three dashes, three dashes, each perhaps
      with a carriage return; and a body. If all from the first dash to the body is within 4096 bytes the body is what is left;
      and nothing that reaches further is ever taken off. */
  lemma PlainFile<F>(bom: bytes, o: bytes, y: bytes, c: bytes, body: bytes, yaml: bytes -> Yaml<F>, default: F)
    requires bom == [] || bom == [0xef, 0xbb, 0xbf]
    requires (o == [45, 45, 45, 10] || o == [45, 45, 45, 13, 10]) && (c == [45, 45, 45, 10] || c == [45, 45, 45, 13, 10])
    requires y == [] || y[|y| - 1] == 10
    requires forall i, j | 0 <= i <= j < |y| && (i == 0 || y[i - 1] == 10) && y[j] == 10 ::
               y[i..j] != [45, 45, 45] && y[i..j] != [45, 45, 45, 13]
    requires |o + y + c| <= 4096 && yaml(y).Mapping?
    ensures Stripped(bom + o + y + c + body, yaml, default) == (body, yaml(y).fields)
  {
    var p := Parts(bom, o, y, c, body);
    assert c[..|c| - 1] == if |c| == 4 then [45, 45, 45] else [45, 45, 45, 13];
    ComposeThenStrip(p, yaml, default);
  }

  lemma WithinLimit(input: bytes, p: Parts)
    requires Splits(input, p)
    ensures |p.opener + p.yaml + p.closer| <= 4096
  {
  }
}
