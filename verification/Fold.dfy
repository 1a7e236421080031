/** Tool-call frames, and their fold into the response the model sees. */
module Frames {
  /** One frame of a call's stream; `Empty` carries nothing. */
  datatype Frame =
    | Stdout(text: string)
    | Stderr(text: string)
    | Image(media: string, data: string)
    | Complete(outcome: int, exitCode: int)
    | Empty

  const DONE: int := 1
  const FAILED: int := 2

  /** The synthetic terminal of a call that ended without one of its own. */
  const FAILED_TERMINAL: Frame := Complete(FAILED, -1)

  predicate IsTerminal(f: Frame) {
    f.Complete?
  }

  predicate NoTerminal(fs: seq<Frame>) {
    forall i | 0 <= i < |fs| :: !IsTerminal(fs[i])
  }

  /** At most one terminal, and nothing after it. */
  predicate WellTerminated(fs: seq<Frame>) {
    fs == [] || NoTerminal(fs[..|fs| - 1])
  }
}

module Fold {
  import opened Frames

  datatype Block = Text(text: string) | Picture(media: string, data: string) | Other(what: string)

  datatype Response = Response(content: seq<Block>, isError: bool)

  // ---- The joined text ----

  function PushLine(buf: string, line: string): string {
    (if buf == "" then "" else buf + "\n") + line
  }

  /** Lines with a newline between each two. */
  function JoinLines(lines: seq<string>): string {
    if lines == [] then ""
    else if |lines| == 1 then lines[0]
    else JoinLines(lines[..|lines| - 1]) + "\n" + lines[|lines| - 1]
  }

  function DropEmptyFront(lines: seq<string>): seq<string> {
    if lines != [] && lines[0] == "" then DropEmptyFront(lines[1..]) else lines
  }

  /** The text a buffer holds after its lines are pushed: empty lines count only after a first
      non-empty one. */
  function Joined(lines: seq<string>): string {
    JoinLines(DropEmptyFront(lines))
  }

  lemma {:induction false} DropSnoc(lines: seq<string>, line: string)
    ensures DropEmptyFront(lines + [line]) ==
            if DropEmptyFront(lines) == [] then DropEmptyFront([line]) else DropEmptyFront(lines) + [line]
  {
    if lines == [] {
      assert lines + [line] == [line];
    } else if lines[0] == "" {
      assert (lines + [line])[1..] == lines[1..] + [line];
      DropSnoc(lines[1..], line);
    }
  }

  lemma {:induction false} JoinedEmpty(lines: seq<string>)
    requires lines == [] || lines[0] != ""
    ensures JoinLines(lines) == "" <==> lines == []
  {
    if |lines| > 1 {
      assert |JoinLines(lines)| >= 1;
    }
  }

  lemma {:induction false} FrontNotEmpty(lines: seq<string>)
    ensures DropEmptyFront(lines) == [] || DropEmptyFront(lines)[0] != ""
  {
    if lines != [] && lines[0] == "" {
      FrontNotEmpty(lines[1..]);
    }
  }

  lemma JoinedSnoc(lines: seq<string>, line: string)
    ensures Joined(lines + [line]) == PushLine(Joined(lines), line)
  {
    var d := DropEmptyFront(lines);
    DropSnoc(lines, line);
    FrontNotEmpty(lines);
    JoinedEmpty(d);
    if d == [] {
      assert line != "" ==> DropEmptyFront([line]) == [line];
      assert line == "" ==> DropEmptyFront([line]) == DropEmptyFront([]);
    } else {
      assert (d + [line])[..|d|] == d;
    }
  }

  lemma TwoLines(a: string, b: string)
    requires a != ""
    ensures Joined([a, b]) == a + "\n" + b
  {
    JoinedSnoc([a], b);
    assert [a] + [b] == [a, b];
    assert Joined([a]) == a;
  }

  // ---- The fold ----

  function StdoutLines(fs: seq<Frame>): seq<string> {
    if fs == [] then []
    else StdoutLines(fs[..|fs| - 1]) + if fs[|fs| - 1].Stdout? then [fs[|fs| - 1].text] else []
  }

  function StderrLines(fs: seq<Frame>): seq<string> {
    if fs == [] then []
    else StderrLines(fs[..|fs| - 1]) + if fs[|fs| - 1].Stderr? then [fs[|fs| - 1].text] else []
  }

  function Pictures(fs: seq<Frame>): seq<Block> {
    if fs == [] then []
    else Pictures(fs[..|fs| - 1]) + if fs[|fs| - 1].Image? then [Picture(fs[|fs| - 1].media, fs[|fs| - 1].data)] else []
  }

  /** The last terminal decides; with none, the call looks like a clean exit. */
  function LastTerminal(fs: seq<Frame>): (t: Frame)
    ensures t.Complete?
  {
    if fs == [] then Complete(DONE, 0)
    else if IsTerminal(fs[|fs| - 1]) then fs[|fs| - 1]
    else LastTerminal(fs[..|fs| - 1])
  }

  function ExitCode(fs: seq<Frame>): int {
    LastTerminal(fs).exitCode
  }

  function ErrorBit(fs: seq<Frame>): bool {
    LastTerminal(fs).outcome != DONE
  }

  /** Standard output; after a non-zero exit also standard error, on a new line. */
  function ResultText(fs: seq<Frame>): string {
    var out, err := Joined(StdoutLines(fs)), Joined(StderrLines(fs));
    if ExitCode(fs) != 0 && err != "" then PushLine(out, err) else out
  }

  function WithText(images: seq<Block>, text: string): seq<Block> {
    if images == [] || text != "" then images + [Text(text)] else images
  }

  function Assembled(fs: seq<Frame>): Response {
    Response(WithText(Pictures(fs), ResultText(fs)), ErrorBit(fs))
  }

  lemma FrameStep(fs: seq<Frame>, i: nat)
    requires i < |fs|
    ensures StdoutLines(fs[..i + 1]) == if fs[i].Stdout? then StdoutLines(fs[..i]) + [fs[i].text] else StdoutLines(fs[..i])
    ensures StderrLines(fs[..i + 1]) == if fs[i].Stderr? then StderrLines(fs[..i]) + [fs[i].text] else StderrLines(fs[..i])
    ensures Pictures(fs[..i + 1]) == if fs[i].Image? then Pictures(fs[..i]) + [Picture(fs[i].media, fs[i].data)] else Pictures(fs[..i])
    ensures LastTerminal(fs[..i + 1]) == if IsTerminal(fs[i]) then fs[i] else LastTerminal(fs[..i])
  {
    assert fs[..i + 1][..i] == fs[..i];
  }

  method Assemble(fs: seq<Frame>) returns (r: Response)
    ensures r == Assembled(fs)
  {
    var stdout, stderr := "", "";
    var images: seq<Block> := [];
    var exitCode, isError := 0, false;
    for i := 0 to |fs|
      invariant stdout == Joined(StdoutLines(fs[..i])) && stderr == Joined(StderrLines(fs[..i]))
      invariant images == Pictures(fs[..i])
      invariant exitCode == ExitCode(fs[..i]) && isError == ErrorBit(fs[..i])
    {
      FrameStep(fs, i);
      match fs[i]
      case Stdout(s) =>
        JoinedSnoc(StdoutLines(fs[..i]), s);
        stdout := PushLine(stdout, s);
      case Stderr(s) =>
        JoinedSnoc(StderrLines(fs[..i]), s);
        stderr := PushLine(stderr, s);
      case Image(media, data) =>
        images := images + [Picture(media, data)];
      case Complete(outcome, code) =>
        exitCode := code;
        isError := outcome != DONE;
      case Empty =>
    }
    assert fs[..|fs|] == fs;
    var text := stdout;
    if exitCode != 0 && stderr != "" {
      if text != "" {
        text := text + "\n";
      }
      text := text + stderr;
    }
    var content := images;
    if content == [] || text != "" {
      content := content + [Text(text)];
    }
    r := Response(content, isError);
  }

  // ---- Standard error ----

  function NoStderr(fs: seq<Frame>): seq<Frame> {
    if fs == [] then [] else NoStderr(fs[..|fs| - 1]) + if fs[|fs| - 1].Stderr? then [] else [fs[|fs| - 1]]
  }

  lemma {:induction false} WithoutStderr(fs: seq<Frame>)
    ensures var g := NoStderr(fs);
            && StdoutLines(g) == StdoutLines(fs) && StderrLines(g) == [] && Pictures(g) == Pictures(fs)
            && LastTerminal(g) == LastTerminal(fs)
    decreases |fs|
  {
    if fs != [] {
      var init, f := fs[..|fs| - 1], fs[|fs| - 1];
      WithoutStderr(init);
      if f.Stderr? {
        assert NoStderr(fs) == NoStderr(init);
      } else {
        assert NoStderr(fs)[..|NoStderr(init)|] == NoStderr(init);
      }
    }
  }

  /** After a clean exit standard error leaves no trace in the response. */
  lemma CleanExitHides(fs: seq<Frame>)
    requires LastTerminal(fs).exitCode == 0
    ensures Assembled(fs) == Assembled(NoStderr(fs))
  {
    WithoutStderr(fs);
  }

  /** After any other exit it reads as if its text, where there is any, had been the last line of standard output. */
  lemma FailureShows(fs: seq<Frame>)
    requires LastTerminal(fs).exitCode != 0
    ensures var err := Joined(StderrLines(fs));
            Assembled(fs) == Assembled(if err == "" then NoStderr(fs) else NoStderr(fs) + [Stdout(err)])
  {
    var g, err := NoStderr(fs), Joined(StderrLines(fs));
    WithoutStderr(fs);
    JoinedSnoc(StdoutLines(g), err);
    assert (g + [Stdout(err)])[..|g|] == g;
    assert Joined([]) == "";
  }

  /** The same frames with the two streams exchanged. */
  function Crossed(fs: seq<Frame>): (g: seq<Frame>)
    ensures |g| == |fs|
  {
    if fs == [] then []
    else
      var f := fs[|fs| - 1];
      Crossed(fs[..|fs| - 1]) + [if f.Stdout? then Stderr(f.text) else if f.Stderr? then Stdout(f.text) else f]
  }

  /** Both streams are gathered alike. */
  lemma {:induction false} StreamsAlike(fs: seq<Frame>)
    ensures StderrLines(fs) == StdoutLines(Crossed(fs)) && StdoutLines(fs) == StderrLines(Crossed(fs))
    decreases |fs|
  {
    if fs != [] {
      var init := fs[..|fs| - 1];
      StreamsAlike(init);
      assert Crossed(fs)[..|init|] == Crossed(init);
    }
  }

  /** Of several terminals the last one decides: an error exactly if its outcome is not DONE. */
  lemma LastDecides(fs: seq<Frame>, outcome: int, exitCode: int, after: seq<Frame>)
    requires NoTerminal(after)
    ensures var all := fs + [Complete(outcome, exitCode)] + after;
            LastTerminal(all) == Complete(outcome, exitCode) && (Assembled(all).isError <==> outcome != 1)
    decreases |after|
  {
    var all := fs + [Complete(outcome, exitCode)] + after;
    if after != [] {
      var init := after[..|after| - 1];
      LastDecides(fs, outcome, exitCode, init);
      assert all[..|all| - 1] == fs + [Complete(outcome, exitCode)] + init;
    }
  }

  /** With none the response is no error and shows no standard error. */
  lemma {:induction false} NoTerminalIsClean(fs: seq<Frame>)
    requires NoTerminal(fs)
    ensures LastTerminal(fs) == Complete(1, 0) && !Assembled(fs).isError && Assembled(fs) == Assembled(NoStderr(fs))
    decreases |fs|
  {
    if fs != [] {
      NoTerminalIsClean(fs[..|fs| - 1]);
    }
    CleanExitHides(fs);
  }

  // ---- The inverse ----

  function BlockFrame(b: Block): seq<Frame> {
    match b
    case Text(t) => [Stdout(t)]
    case Picture(m, d) => [Image(m, d)]
    case Other(_) => []
  }

  function BlockFrames(content: seq<Block>): seq<Frame> {
    if content == [] then []
    else BlockFrames(content[..|content| - 1]) + BlockFrame(content[|content| - 1])
  }

  function FramesOf(r: Response): seq<Frame> {
    BlockFrames(r.content) + [if r.isError then Complete(FAILED, 1) else Complete(DONE, 0)]
  }

  method FramesFromResponse(r: Response) returns (fs: seq<Frame>)
    ensures fs == FramesOf(r)
  {
    fs := [];
    for i := 0 to |r.content|
      invariant fs == BlockFrames(r.content[..i])
    {
      assert r.content[..i + 1][..i] == r.content[..i];
      match r.content[i]
      case Text(t) => fs := fs + [Stdout(t)];
      case Picture(m, d) => fs := fs + [Image(m, d)];
      case Other(_) =>
    }
    assert r.content[..|r.content|] == r.content;
    var (outcome, exitCode) := if r.isError then (FAILED, 1) else (DONE, 0);
    fs := fs + [Complete(outcome, exitCode)];
  }

  // ---- Round trips ----

  function TextsOf(content: seq<Block>): seq<string> {
    if content == [] then []
    else TextsOf(content[..|content| - 1]) + if content[|content| - 1].Text? then [content[|content| - 1].text] else []
  }

  function PicturesOf(content: seq<Block>): seq<Block> {
    if content == [] then []
    else PicturesOf(content[..|content| - 1]) + if content[|content| - 1].Picture? then [content[|content| - 1]] else []
  }

  lemma {:induction false} BlockFramesFold(content: seq<Block>)
    ensures var fs := BlockFrames(content);
            && StdoutLines(fs) == TextsOf(content) && StderrLines(fs) == []
            && Pictures(fs) == PicturesOf(content) && NoTerminal(fs)
    decreases |content|
  {
    if content != [] {
      var rest, b := content[..|content| - 1], content[|content| - 1];
      BlockFramesFold(rest);
      if BlockFrame(b) == [] {
        assert BlockFrames(content) == BlockFrames(rest);
      } else {
        assert BlockFrames(content)[..|BlockFrames(rest)|] == BlockFrames(rest);
      }
    }
  }

  /** Text and image blocks survive up to normal form: the error bit, the images in order, and
      the texts joined into one final block. */
  lemma ResponseRoundTrip(r: Response)
    ensures Assembled(FramesOf(r)) == Response(WithText(PicturesOf(r.content), Joined(TextsOf(r.content))), r.isError)
  {
    BlockFramesFold(r.content);
    var fs := FramesOf(r);
    var body, end := BlockFrames(r.content), fs[|fs| - 1];
    assert fs[..|fs| - 1] == body;
    assert StdoutLines(fs) == StdoutLines(body) + [] == TextsOf(r.content);
    assert StderrLines(fs) == StderrLines(body) + [] == [];
    assert Pictures(fs) == Pictures(body) + [] == PicturesOf(r.content);
    assert LastTerminal(fs) == end;
    assert Joined([]) == "";
  }

  /** Images first, then one text block, dropped only when it is empty and an image is there. */
  predicate IsNormal(r: Response) {
    var n := |r.content|;
    && n >= 1
    && (forall i | 0 <= i < n - 1 :: r.content[i].Picture?)
    && !r.content[n - 1].Other?
    && (r.content[n - 1].Text? && r.content[n - 1].text == "" ==> n == 1)
  }

  lemma {:induction false} PicturesArePictures(fs: seq<Frame>)
    ensures forall i | 0 <= i < |Pictures(fs)| :: Pictures(fs)[i].Picture?
    decreases |fs|
  {
    if fs != [] {
      PicturesArePictures(fs[..|fs| - 1]);
    }
  }

  lemma AssembledIsNormal(fs: seq<Frame>)
    ensures IsNormal(Assembled(fs))
  {
    PicturesArePictures(fs);
  }

  lemma {:induction false} AllPictures(content: seq<Block>)
    requires forall i | 0 <= i < |content| :: content[i].Picture?
    ensures TextsOf(content) == [] && PicturesOf(content) == content
    decreases |content|
  {
    if content != [] {
      AllPictures(content[..|content| - 1]);
    }
  }

  lemma JoinedOne(s: string)
    ensures Joined([s]) == s
  {
    assert s == "" ==> DropEmptyFront([s]) == DropEmptyFront([]);
  }

  lemma NormalUnchanged(r: Response)
    requires IsNormal(r)
    ensures WithText(PicturesOf(r.content), Joined(TextsOf(r.content))) == r.content
  {
    var n := |r.content|;
    var init, last := r.content[..n - 1], r.content[n - 1];
    AllPictures(init);
    assert r.content == init + [last];
    if last.Text? {
      JoinedOne(last.text);
      assert TextsOf(r.content) == [] + [last.text] == [last.text];
      assert PicturesOf(r.content) == init + [] == init;
    } else {
      AllPictures(r.content);
      assert Joined([]) == "";
    }
  }

  /** A response is what some frame list folds to exactly when it is in normal form, and then
      splitting and folding it changes nothing. */
  lemma NormalFormsAreFixed(r: Response)
    ensures IsNormal(r) <==> Assembled(FramesOf(r)) == r
    ensures IsNormal(r) <==> exists fs :: Assembled(fs) == r
  {
    if IsNormal(r) {
      ResponseRoundTrip(r);
      NormalUnchanged(r);
    }
    forall fs | Assembled(fs) == r ensures IsNormal(r) {
      AssembledIsNormal(fs);
    }
  }

  /** Folding, splitting and folding again equals folding once. */
  lemma FoldIdempotent(fs: seq<Frame>)
    ensures Assembled(FramesOf(Assembled(fs))) == Assembled(fs)
  {
    AssembledIsNormal(fs);
    NormalFormsAreFixed(Assembled(fs));
  }
}
