/** Client-driven calls: one consumer for each call persists, buffers and broadcasts its frames; any
    number of subscribers follow it live, join late, or replay it from the execution log afterwards. */
module Session {
  import opened Wrappers
  import opened Frames
  import opened LineFile

  const FANOUT: nat := 256

  /** Where a call's consumer stands. `Holding` has written a frame to the log and not yet published it;
      `Lost` was cut off by a crash, with the frame it was holding, if any. */
  datatype Stage = Waiting | Holding(frame: Frame) | Ended | Retired | Lost(held: seq<Frame>)

  /** Nothing more will be written or published, and the session map does not have the call. */
  predicate Gone(stage: Stage) {
    stage.Retired? || stage.Lost?
  }

  /** Why a stream came to its end; a replay says how much of the log it was read from. */
  datatype Reason = OwnTerminal | FanoutClosed | Lagged | Replayed(at: nat)

  /** Where a subscriber stands. `Following` has still to send the rest of its snapshot, and its receiver
      will then read the broadcast from `pos`. */
  datatype Phase =
    | Granted
    | Following(rest: seq<Frame>, pos: nat)
    | Absent
    | Replaying(rest: seq<Frame>, at: nat)
    | Finished(why: Reason)
    | NotFound(at: nat)
    | NeverIssued
    | Abandoned

  datatype Record = Record(call: nat, frame: Frame)

  /** One row for each call: the frames in its buffer, what its broadcast carried, and its consumer. The
      writes to the execution log. One row for each subscriber: its call, where it stands, and what its
      client was sent. */
  datatype State = State(
    frames: seq<seq<Frame>>, casts: seq<seq<Frame>>, stages: seq<Stage>, log: seq<Op<Record>>,
    asked: seq<nat>, phases: seq<Phase>, outs: seq<seq<Frame>>)

  const EMPTY: State := State([], [], [], [], [], [], [])

  // ---- The execution log ----

  /** Images and empty frames leave no record. */
  predicate Recorded(f: Frame) {
    f.Stdout? || f.Stderr? || f.Complete?
  }

  function Erased(fs: seq<Frame>): seq<Frame> {
    if fs == [] then []
    else Erased(fs[..|fs| - 1]) + if Recorded(fs[|fs| - 1]) then [fs[|fs| - 1]] else []
  }

  function Appended(log: seq<Op<Record>>, c: nat, f: Frame, cut: Cut): seq<Op<Record>> {
    if Recorded(f) then log + [Op(Record(c, f), cut)] else log
  }

  /** The frames of one call among these records, in order. */
  function RecordsOf(rs: seq<Record>, c: nat): seq<Frame> {
    if rs == [] then []
    else RecordsOf(rs[..|rs| - 1], c) + if rs[|rs| - 1].call == c then [rs[|rs| - 1].frame] else []
  }

  /** What a call's reader finds in the log; nothing if the file cannot be read. */
  function ReadOut(log: seq<Op<Record>>, c: nat): seq<Frame> {
    if AllClean(log) then RecordsOf(Shown(log), c) else []
  }

  predicate EndsInTerminal(fs: seq<Frame>) {
    fs != [] && IsTerminal(fs[|fs| - 1])
  }

  /** A stream without a terminal of its own is closed on a synthetic failure. */
  function Closed(fs: seq<Frame>): seq<Frame> {
    if EndsInTerminal(fs) then fs else fs + [FAILED_TERMINAL]
  }

  method ReadRecords(log: Option<seq<Record>>, c: nat) returns (r: Option<seq<Frame>>)
    ensures r == if log.None? || RecordsOf(log.value, c) == [] then None else Some(RecordsOf(log.value, c))
  {
    if log.None? {
      return None;
    }
    var rs, frames := log.value, [];
    for i := 0 to |rs|
      invariant frames == RecordsOf(rs[..i], c)
    {
      assert rs[..i + 1][..i] == rs[..i];
      if rs[i].call == c {
        frames := frames + [rs[i].frame];
      }
    }
    assert rs[..|rs|] == rs;
    r := if frames == [] then None else Some(frames);
  }

  // ---- Steps ----

  datatype Step =
    | Start
    | Persist(c: nat, frame: Frame, cut: Cut)
    | Publish(c: nat)
    | Close(c: nat)
    | Retire(c: nat)
    | Ask(c: nat)
    | Join(u: nat)
    | Deliver(u: nat)
    | Lag(u: nat)
    | Hear(u: nat)
    | ReadLog(u: nat)
    | Replay(u: nat)
    | Abandon(u: nat)
    | Crash

  predicate Row(s: State, c: nat) {
    c < |s.frames| && c < |s.casts| && c < |s.stages|
  }

  predicate Sub(s: State, u: nat) {
    u < |s.asked| && u < |s.phases| && u < |s.outs| && Row(s, s.asked[u])
  }

  function DoStart(s: State): State {
    s.(frames := s.frames + [[]], casts := s.casts + [[]], stages := s.stages + [Waiting])
  }

  /** The consumer has received the frame and its append has returned, whether or not it succeeded. */
  function DoPersist(s: State, c: nat, f: Frame, cut: Cut): State
    requires Row(s, c)
  {
    s.(log := Appended(s.log, c, f, cut), stages := s.stages[c := Holding(f)])
  }

  predicate Listens(asked: seq<nat>, phases: seq<Phase>, u: nat, c: nat) {
    u < |asked| && u < |phases| && asked[u] == c && phases[u].Following?
  }

  /** Some receiver of the call's broadcast is alive. */
  predicate Heard(asked: seq<nat>, phases: seq<Phase>, c: nat) {
    exists u | 0 <= u < |asked| :: Listens(asked, phases, u, c)
  }

  /** Push and broadcast, as one critical section. A broadcast that nobody receives carries nothing. */
  function DoPublish(s: State, c: nat): State
    requires Row(s, c) && s.stages[c].Holding?
  {
    var f := s.stages[c].frame;
    s.(frames := s.frames[c := s.frames[c] + [f]],
       casts := if Heard(s.asked, s.phases, c) then s.casts[c := s.casts[c] + [f]] else s.casts,
       stages := s.stages[c := if IsTerminal(f) then Ended else Waiting])
  }

  /** The session map has the call exactly until it is retired. */
  function DoAsk(s: State, c: nat): State {
    var phase := if !Row(s, c) then NeverIssued else if Gone(s.stages[c]) then Absent else Granted;
    s.(asked := s.asked + [c], phases := s.phases + [phase], outs := s.outs + [[]])
  }

  /** Snapshot and subscription, as one critical section with the consumer's. A receiver hears what is sent
      after it was made. */
  function DoJoin(s: State, u: nat): State
    requires Sub(s, u)
  {
    var c := s.asked[u];
    s.(phases := s.phases[u := Following(s.frames[c], |s.casts[c]|)])
  }

  /** The receiver's next frame has been overwritten: the broadcast keeps the last 256. */
  predicate Lagging(s: State, u: nat)
    requires Sub(s, u)
  {
    s.phases[u].Following? && s.phases[u].rest == [] && s.phases[u].pos + FANOUT < |s.casts[s.asked[u]]|
  }

  predicate CanDeliver(s: State, u: nat) {
    && Sub(s, u) && s.phases[u].Following?
    && (s.phases[u].rest != [] || (s.phases[u].pos < |s.casts[s.asked[u]]| && !Lagging(s, u)))
  }

  /** The next frame of the snapshot, then of the broadcast. */
  function DoDeliver(s: State, u: nat): State
    requires CanDeliver(s, u)
  {
    var p := s.phases[u];
    var f := if p.rest != [] then p.rest[0] else s.casts[s.asked[u]][p.pos];
    var next := if p.rest != [] then Following(p.rest[1..], p.pos) else Following([], p.pos + 1);
    s.(outs := s.outs[u := s.outs[u] + [f]], phases := s.phases[u := if IsTerminal(f) then Finished(OwnTerminal) else next])
  }

  function Failed(s: State, u: nat, why: Reason): State
    requires Sub(s, u)
  {
    s.(outs := s.outs[u := s.outs[u] + [FAILED_TERMINAL]], phases := s.phases[u := Finished(why)])
  }

  /** Someone has the call's handle, and with it a sender, without having joined yet. */
  predicate Joining(asked: seq<nat>, phases: seq<Phase>, c: nat) {
    exists u | 0 <= u < |asked| :: u < |phases| && asked[u] == c && phases[u].Granted?
  }

  /** Everything heard, and every sender gone. */
  predicate CanHear(s: State, u: nat) {
    && Sub(s, u) && s.phases[u].Following? && s.stages[s.asked[u]].Retired? && !Joining(s.asked, s.phases, s.asked[u])
    && s.phases[u].rest == [] && s.phases[u].pos == |s.casts[s.asked[u]]|
  }

  function DoReadLog(s: State, u: nat): State
    requires Sub(s, u)
  {
    var frames := ReadOut(s.log, s.asked[u]);
    s.(phases := s.phases[u := if frames == [] then NotFound(|s.log|) else Replaying(Closed(frames), |s.log|)])
  }

  function DoReplay(s: State, u: nat): State
    requires Sub(s, u) && s.phases[u].Replaying?
  {
    var rest, at := s.phases[u].rest, s.phases[u].at;
    if rest == [] then s.(phases := s.phases[u := Finished(Replayed(at))])
    else s.(outs := s.outs[u := s.outs[u] + [rest[0]]], phases := s.phases[u := Replaying(rest[1..], at)])
  }

  function CutOff(stage: Stage): Stage {
    match stage
    case Holding(f) => Lost([f])
    case Waiting => Lost([])
    case Ended => Lost([])
    case _ => stage
  }

  predicate Over(phase: Phase) {
    phase.Finished? || phase.NotFound? || phase.NeverIssued? || phase.Abandoned?
  }

  /** The harness dies and starts anew: consumers, buffers and subscribers are gone, the log stays. */
  function DoCrash(s: State): State {
    s.(stages := seq(|s.stages|, i requires 0 <= i < |s.stages| => CutOff(s.stages[i])),
       phases := seq(|s.phases|, i requires 0 <= i < |s.phases| => if Over(s.phases[i]) then s.phases[i] else Abandoned))
  }

  function Apply(s: State, step: Step): State {
    match step
    case Start => DoStart(s)
    case Persist(c, f, cut) => if Row(s, c) && s.stages[c].Waiting? then DoPersist(s, c, f, cut) else s
    case Publish(c) => if Row(s, c) && s.stages[c].Holding? then DoPublish(s, c) else s
    case Close(c) => if Row(s, c) && s.stages[c].Waiting? then s.(stages := s.stages[c := Ended]) else s
    case Retire(c) => if Row(s, c) && s.stages[c].Ended? then s.(stages := s.stages[c := Retired]) else s
    case Ask(c) => DoAsk(s, c)
    case Join(u) => if Sub(s, u) && s.phases[u].Granted? then DoJoin(s, u) else s
    case Deliver(u) => if CanDeliver(s, u) then DoDeliver(s, u) else s
    case Lag(u) => if Sub(s, u) && Lagging(s, u) then Failed(s, u, Lagged) else s
    case Hear(u) => if CanHear(s, u) then Failed(s, u, FanoutClosed) else s
    case ReadLog(u) => if Sub(s, u) && s.phases[u].Absent? then DoReadLog(s, u) else s
    case Replay(u) => if Sub(s, u) && s.phases[u].Replaying? then DoReplay(s, u) else s
    case Abandon(u) => if u < |s.phases| then s.(phases := s.phases[u := Abandoned]) else s
    case Crash => DoCrash(s)
  }

  function Run(steps: seq<Step>): State {
    if steps == [] then EMPTY else Apply(Run(steps[..|steps| - 1]), steps[|steps| - 1])
  }

  // ---- Erasing and filtering ----

  lemma ErasedSnoc(fs: seq<Frame>, f: Frame)
    ensures Erased(fs + [f]) == Erased(fs) + if Recorded(f) then [f] else []
  {
    assert (fs + [f])[..|fs|] == fs;
  }

  lemma RecordsSnoc(rs: seq<Record>, r: Record, x: nat)
    ensures RecordsOf(rs + [r], x) == RecordsOf(rs, x) + if x == r.call then [r.frame] else []
  {
    assert (rs + [r])[..|rs|] == rs;
  }

  /** Everything ever written for a call, readable or not. */
  function WrittenOf(log: seq<Op<Record>>, c: nat): seq<Frame> {
    RecordsOf(Records(log), c)
  }

  lemma WrittenSnoc(log: seq<Op<Record>>, c: nat, f: Frame, cut: Cut, x: nat)
    ensures WrittenOf(Appended(log, c, f, cut), x) == WrittenOf(log, x) + if x == c && Recorded(f) then [f] else []
  {
    assert (log + [Op(Record(c, f), cut)])[..|log|] == log;
    RecordsSnoc(Records(log), Record(c, f), x);
  }

  lemma {:induction false} ErasedTerminal(fs: seq<Frame>)
    requires WellTerminated(fs)
    ensures EndsInTerminal(Erased(fs)) <==> EndsInTerminal(fs)
    ensures NoTerminal(fs) ==> NoTerminal(Erased(fs))
    decreases |fs|
  {
    if fs != [] {
      ErasedTerminal(fs[..|fs| - 1]);
    }
  }

  // ---- What every step keeps ----

  predicate StageFits(fs: seq<Frame>, stage: Stage) {
    && WellTerminated(fs)
    && (stage.Waiting? || stage.Holding? ==> NoTerminal(fs))
    && (stage.Lost? ==> |stage.held| <= 1 && (stage.held != [] ==> NoTerminal(fs)))
  }

  /** What the consumer has tried to write: what was published and the frame it holds. */
  function Written(fs: seq<Frame>, stage: Stage): seq<Frame> {
    if stage.Holding? then fs + [stage.frame] else if stage.Lost? then fs + stage.held else fs
  }

  ghost predicate Logged(frames: seq<seq<Frame>>, stages: seq<Stage>, log: seq<Op<Record>>) {
    && |frames| == |stages|
    && (forall c | 0 <= c < |frames| :: StageFits(frames[c], stages[c]))
    && (forall c | 0 <= c < |frames| :: WrittenOf(log, c) == Erased(Written(frames[c], stages[c])))
    && (forall c: nat | c >= |frames| :: WrittenOf(log, c) == [])
  }

  /** A reader of the first `at` writes, when nothing more was to come for the call. */
  predicate ReadAfter(fs: seq<Frame>, stage: Stage, log: seq<Op<Record>>, c: nat, at: nat) {
    at <= |log| && Gone(stage) && WrittenOf(log[..at], c) == Erased(Written(fs, stage))
  }

  predicate ReplayFits(fs: seq<Frame>, stage: Stage, log: seq<Op<Record>>, c: nat, at: nat, whole: seq<Frame>) {
    ReadAfter(fs, stage, log, c, at) && ReadOut(log[..at], c) != [] && whole == Closed(ReadOut(log[..at], c))
  }

  /** What a subscriber's client has been sent, measured against its call: while it follows, that and the rest of
      the snapshot and what its receiver has still to read are the buffer. */
  predicate OutFits(fs: seq<Frame>, cast: seq<Frame>, stage: Stage, log: seq<Op<Record>>, c: nat, phase: Phase, sent: seq<Frame>) {
    match phase
    case Granted => sent == []
    case Following(rest, pos) => pos <= |cast| && sent + rest + cast[pos..] == fs && NoTerminal(sent)
    case Absent => sent == [] && Gone(stage)
    case Replaying(rest, at) => ReplayFits(fs, stage, log, c, at, sent + rest)
    case Finished(why) => EndFits(fs, stage, log, c, why, sent)
    case NotFound(at) => sent == [] && ReadAfter(fs, stage, log, c, at) && ReadOut(log[..at], c) == []
    case NeverIssued => sent == []
    case Abandoned => true
  }

  predicate EndFits(fs: seq<Frame>, stage: Stage, log: seq<Op<Record>>, c: nat, why: Reason, sent: seq<Frame>) {
    match why
    case OwnTerminal => sent == fs && EndsInTerminal(fs)
    case FanoutClosed => stage.Retired? && NoTerminal(fs) && sent == fs + [FAILED_TERMINAL]
    case Lagged => exists k :: 0 <= k < |fs| && k + FANOUT < |fs| && NoTerminal(fs[..k]) && sent == fs[..k] + [FAILED_TERMINAL]
    case Replayed(at) => ReplayFits(fs, stage, log, c, at, sent)
  }

  predicate SubFits(frames: seq<seq<Frame>>, casts: seq<seq<Frame>>, stages: seq<Stage>, log: seq<Op<Record>>,
                    c: nat, phase: Phase, sent: seq<Frame>) {
    if c < |frames| && c < |casts| && c < |stages| then OutFits(frames[c], casts[c], stages[c], log, c, phase, sent)
    else sent == [] && (phase.NeverIssued? || phase.Abandoned?)
  }

  predicate Fit(s: State, u: nat)
    requires u < |s.asked| && u < |s.phases| && u < |s.outs|
  {
    SubFits(s.frames, s.casts, s.stages, s.log, s.asked[u], s.phases[u], s.outs[u])
  }

  ghost predicate Served(s: State) {
    && |s.frames| == |s.casts| == |s.stages|
    && |s.asked| == |s.phases| == |s.outs|
    && forall u | 0 <= u < |s.asked| :: Fit(s, u)
  }

  ghost predicate Inv(s: State) {
    Logged(s.frames, s.stages, s.log) && Served(s)
  }

  // ---- Steps of the consumer ----

  /** A call only grows, and not once it has a terminal or is gone. Whoever follows hears what is added. */
  predicate Grows(fs: seq<Frame>, cast: seq<Frame>, stage: Stage, fs': seq<Frame>, cast': seq<Frame>, stage': Stage, heard: bool) {
    && fs <= fs'
    && (heard ==> cast' == cast + fs'[|fs|..])
    && (EndsInTerminal(fs) || Gone(stage) ==> fs' == fs)
    && (Gone(stage) ==> stage' == stage)
  }

  lemma EndKept(fs: seq<Frame>, cast: seq<Frame>, stage: Stage, log: seq<Op<Record>>,
                fs': seq<Frame>, cast': seq<Frame>, stage': Stage, log': seq<Op<Record>>, c: nat, why: Reason, sent: seq<Frame>)
    requires EndFits(fs, stage, log, c, why, sent) && Grows(fs, cast, stage, fs', cast', stage', false) && log <= log'
    ensures EndFits(fs', stage', log', c, why, sent)
  {
    match why
    case Lagged =>
      var k :| 0 <= k < |fs| && k + FANOUT < |fs| && NoTerminal(fs[..k]) && sent == fs[..k] + [FAILED_TERMINAL];
      assert fs'[..k] == fs[..k];
    case Replayed(at) => assert log'[..at] == log[..at];
    case _ =>
  }

  lemma FollowKept(fs: seq<Frame>, cast: seq<Frame>, fs': seq<Frame>, cast': seq<Frame>, rest: seq<Frame>, pos: nat, sent: seq<Frame>)
    requires pos <= |cast| && sent + rest + cast[pos..] == fs <= fs' && cast' == cast + fs'[|fs|..]
    ensures sent + rest + cast'[pos..] == fs'
  {
    assert cast'[pos..] == cast[pos..] + fs'[|fs|..];
    assert sent + rest + (cast[pos..] + fs'[|fs|..]) == fs + fs'[|fs|..];
  }

  lemma OutKept(fs: seq<Frame>, cast: seq<Frame>, stage: Stage, log: seq<Op<Record>>,
                fs': seq<Frame>, cast': seq<Frame>, stage': Stage, log': seq<Op<Record>>, c: nat, phase: Phase, sent: seq<Frame>)
    requires OutFits(fs, cast, stage, log, c, phase, sent) && log <= log'
    requires Grows(fs, cast, stage, fs', cast', stage', phase.Following?)
    ensures OutFits(fs', cast', stage', log', c, phase, sent)
  {
    match phase
    case Following(rest, pos) => FollowKept(fs, cast, fs', cast', rest, pos, sent);
    case Finished(why) => EndKept(fs, cast, stage, log, fs', cast', stage', log', c, why, sent);
    case Replaying(_, at) => assert log'[..at] == log[..at];
    case NotFound(at) => assert log'[..at] == log[..at];
    case _ =>
  }

  /** Subscribers stay served when one call moves on. */
  lemma CallMoves(s: State, c: nat, t: State)
    requires Served(s) && Row(s, c) && s.log <= t.log
    requires |t.frames| == |t.casts| == |t.stages| == |s.frames|
    requires t.asked == s.asked && t.phases == s.phases && t.outs == s.outs
    requires forall x | 0 <= x < |s.frames| && x != c ::
               t.frames[x] == s.frames[x] && t.casts[x] == s.casts[x] && t.stages[x] == s.stages[x]
    requires Grows(s.frames[c], s.casts[c], s.stages[c], t.frames[c], t.casts[c], t.stages[c], Heard(s.asked, s.phases, c))
    ensures Served(t)
  {
    forall u | 0 <= u < |t.asked| ensures Fit(t, u) {
      assert Fit(s, u);
      var x := s.asked[u];
      if x < |s.frames| {
        if s.phases[u].Following? {
          assert Listens(s.asked, s.phases, u, x);
        }
        OutKept(s.frames[x], s.casts[x], s.stages[x], s.log, t.frames[x], t.casts[x], t.stages[x], t.log, x, s.phases[u], s.outs[u]);
      }
    }
  }

  lemma LogMoves(frames: seq<seq<Frame>>, stages: seq<Stage>, log: seq<Op<Record>>, c: nat, fs: seq<Frame>, stage: Stage)
    requires Logged(frames, stages, log) && c < |frames| && StageFits(fs, stage)
    requires Erased(Written(fs, stage)) == WrittenOf(log, c)
    ensures Logged(frames[c := fs], stages[c := stage], log)
  {
  }

  lemma StartServes(s: State)
    requires Served(s)
    ensures Served(DoStart(s))
  {
    var t := DoStart(s);
    forall u | 0 <= u < |t.asked| ensures Fit(t, u) {
      assert Fit(s, u);
    }
  }

  lemma StartKeeps(s: State)
    requires Inv(s)
    ensures Inv(DoStart(s))
  {
    hide RecordsOf;
    StartServes(s);
    hide Served;
  }

  lemma PersistKeeps(s: State, c: nat, f: Frame, cut: Cut)
    requires Inv(s) && Row(s, c) && s.stages[c].Waiting?
    ensures Inv(DoPersist(s, c, f, cut))
  {
    hide WrittenOf, Erased, Fit;
    var t := DoPersist(s, c, f, cut);
    forall x: nat ensures WrittenOf(t.log, x) == WrittenOf(s.log, x) + if x == c && Recorded(f) then [f] else [] {
      WrittenSnoc(s.log, c, f, cut, x);
    }
    ErasedSnoc(s.frames[c], f);
    CallMoves(s, c, t);
  }

  lemma PublishKeeps(s: State, c: nat)
    requires Inv(s) && Row(s, c) && s.stages[c].Holding?
    ensures Inv(DoPublish(s, c))
  {
    hide WrittenOf, Erased, Fit;
    var t, fs := DoPublish(s, c), s.frames[c] + [s.stages[c].frame];
    assert fs[..|fs| - 1] == s.frames[c];
    LogMoves(s.frames, s.stages, s.log, c, fs, t.stages[c]);
    assert fs[|s.frames[c]|..] == [s.stages[c].frame];
    CallMoves(s, c, t);
  }

  lemma StageKeeps(s: State, c: nat, stage: Stage)
    requires Inv(s) && Row(s, c) && (s.stages[c].Waiting? || s.stages[c].Ended?) && (stage.Ended? || stage.Retired?)
    ensures Inv(s.(stages := s.stages[c := stage]))
  {
    hide WrittenOf, Erased, Fit;
    assert s.frames[c := s.frames[c]] == s.frames;
    LogMoves(s.frames, s.stages, s.log, c, s.frames[c], stage);
    assert s.frames[c][|s.frames[c]|..] == [] && s.casts[c] + [] == s.casts[c];
    CallMoves(s, c, s.(stages := s.stages[c := stage]));
  }

  lemma CrashLogs(s: State)
    requires Logged(s.frames, s.stages, s.log)
    ensures Logged(s.frames, DoCrash(s).stages, s.log)
  {
    hide WrittenOf, Erased;
    var t := DoCrash(s);
    forall c | 0 <= c < |s.frames|
      ensures StageFits(s.frames[c], t.stages[c]) && WrittenOf(s.log, c) == Erased(Written(s.frames[c], t.stages[c]))
    {
      assert StageFits(s.frames[c], s.stages[c]);
      assert s.frames[c] + [] == s.frames[c];
    }
  }

  lemma CrashKeeps(s: State)
    requires Inv(s)
    ensures Inv(DoCrash(s))
  {
    CrashLogs(s);
    var t := DoCrash(s);
    forall u | 0 <= u < |t.asked| ensures Fit(t, u) {
      assert Fit(s, u);
      var c := s.asked[u];
      if Over(s.phases[u]) && c < |s.frames| {
        OutKept(s.frames[c], s.casts[c], s.stages[c], s.log, s.frames[c], s.casts[c], t.stages[c], s.log, c, s.phases[u], s.outs[u]);
      }
    }
  }

  // ---- Steps of a subscriber ----

  /** One subscriber moves on. */
  lemma SubMoves(s: State, u: nat, phase: Phase, sent: seq<Frame>)
    requires Inv(s) && Sub(s, u)
    requires var c := s.asked[u]; OutFits(s.frames[c], s.casts[c], s.stages[c], s.log, c, phase, sent)
    ensures Inv(s.(phases := s.phases[u := phase], outs := s.outs[u := sent]))
  {
    var t := s.(phases := s.phases[u := phase], outs := s.outs[u := sent]);
    forall v | 0 <= v < |t.asked| ensures Fit(t, v) {
      assert Fit(s, v);
    }
  }

  lemma Halfway(fs: seq<Frame>, sent: seq<Frame>, rest: seq<Frame>, f: Frame)
    requires WellTerminated(fs) && sent + [f] + rest == fs && NoTerminal(sent)
    ensures IsTerminal(f) ==> sent + [f] == fs && EndsInTerminal(fs)
    ensures !IsTerminal(f) ==> NoTerminal(sent + [f])
  {
    assert fs[|sent|] == f;
    if rest != [] {
      assert fs[..|fs| - 1][|sent|] == f;
    }
  }

  lemma FromSnapshot(sent: seq<Frame>, rest: seq<Frame>, after: seq<Frame>)
    requires rest != []
    ensures sent + [rest[0]] + rest[1..] + after == sent + rest + after == sent + [rest[0]] + (rest[1..] + after)
  {
  }

  lemma FromCast(sent: seq<Frame>, cast: seq<Frame>, pos: nat)
    requires pos < |cast|
    ensures sent + [cast[pos]] + [] + cast[pos + 1..] == sent + [] + cast[pos..] == sent + [cast[pos]] + cast[pos + 1..]
  {
    assert cast[pos..] == [cast[pos]] + cast[pos + 1..];
  }

  lemma DeliverKeeps(s: State, u: nat)
    requires Inv(s) && CanDeliver(s, u)
    ensures Inv(DoDeliver(s, u))
  {
    var c, t, p, sent := s.asked[u], DoDeliver(s, u), s.phases[u], s.outs[u];
    var fs, cast := s.frames[c], s.casts[c];
    assert Fit(s, u);
    assert StageFits(fs, s.stages[c]);
    if p.rest != [] {
      FromSnapshot(sent, p.rest, cast[p.pos..]);
      Halfway(fs, sent, p.rest[1..] + cast[p.pos..], p.rest[0]);
    } else {
      FromCast(sent, cast, p.pos);
      Halfway(fs, sent, cast[p.pos + 1..], cast[p.pos]);
    }
    hide NoTerminal, WellTerminated;
    SubMoves(s, u, t.phases[u], t.outs[u]);
    assert t == s.(phases := s.phases[u := t.phases[u]], outs := s.outs[u := t.outs[u]]);
  }

  lemma LagKeeps(s: State, u: nat)
    requires Inv(s) && Sub(s, u) && Lagging(s, u)
    ensures Inv(Failed(s, u, Lagged))
  {
    var c := s.asked[u];
    assert Fit(s, u);
    assert s.outs[u] + [] + s.casts[c][s.phases[u].pos..] == s.frames[c];
    assert s.frames[c][..|s.outs[u]|] == s.outs[u];
    SubMoves(s, u, Finished(Lagged), s.outs[u] + [FAILED_TERMINAL]);
  }

  lemma HearKeeps(s: State, u: nat)
    requires Inv(s) && CanHear(s, u)
    ensures Inv(Failed(s, u, FanoutClosed))
  {
    var c := s.asked[u];
    assert Fit(s, u);
    assert s.outs[u] + [] + [] == s.frames[c];
    SubMoves(s, u, Finished(FanoutClosed), s.outs[u] + [FAILED_TERMINAL]);
  }

  lemma ReadLogKeeps(s: State, u: nat)
    requires Inv(s) && Sub(s, u) && s.phases[u].Absent?
    ensures Inv(DoReadLog(s, u))
  {
    hide WrittenOf, Erased, ReadOut, Closed;
    var c, t := s.asked[u], DoReadLog(s, u);
    assert Fit(s, u);
    assert s.log[..|s.log|] == s.log;
    assert WrittenOf(s.log, c) == Erased(Written(s.frames[c], s.stages[c]));
    assert t.phases[u].Replaying? ==> [] + t.phases[u].rest == t.phases[u].rest;
    SubMoves(s, u, t.phases[u], []);
    assert t == s.(phases := s.phases[u := t.phases[u]], outs := s.outs[u := []]);
  }

  lemma ReplayKeeps(s: State, u: nat)
    requires Inv(s) && Sub(s, u) && s.phases[u].Replaying?
    ensures Inv(DoReplay(s, u))
  {
    hide WrittenOf, Erased, ReadOut, Closed;
    var t, rest := DoReplay(s, u), s.phases[u].rest;
    assert Fit(s, u);
    if rest != [] {
      assert s.outs[u] + rest == s.outs[u] + [rest[0]] + rest[1..];
    } else {
      assert s.outs[u] + rest == s.outs[u];
    }
    SubMoves(s, u, t.phases[u], t.outs[u]);
    assert t == s.(phases := s.phases[u := t.phases[u]], outs := s.outs[u := t.outs[u]]);
  }

  lemma JoinKeeps(s: State, u: nat)
    requires Inv(s) && Sub(s, u) && s.phases[u].Granted?
    ensures Inv(DoJoin(s, u))
  {
    var c, t := s.asked[u], DoJoin(s, u);
    assert Fit(s, u);
    assert [] + s.frames[c] + s.casts[c][|s.casts[c]|..] == s.frames[c];
    SubMoves(s, u, t.phases[u], []);
    assert t == s.(phases := s.phases[u := t.phases[u]], outs := s.outs[u := []]);
  }

  lemma AskKeeps(s: State, c: nat)
    requires Inv(s)
    ensures Inv(DoAsk(s, c))
  {
    hide Logged;
    var t := DoAsk(s, c);
    forall v | 0 <= v < |t.asked| ensures Fit(t, v) {
      assert v < |s.asked| ==> Fit(s, v);
    }
  }

  lemma AbandonKeeps(s: State, u: nat)
    requires Inv(s) && u < |s.phases|
    ensures Inv(s.(phases := s.phases[u := Abandoned]))
  {
    hide Logged;
    var t := s.(phases := s.phases[u := Abandoned]);
    forall v | 0 <= v < |t.asked| ensures Fit(t, v) {
      assert Fit(s, v);
    }
  }

  lemma StepKeeps(s: State, step: Step)
    requires Inv(s)
    ensures Inv(Apply(s, step))
  {
    hide Logged, Served;
    match step
    case Start => StartKeeps(s);
    case Persist(c, f, cut) => if Row(s, c) && s.stages[c].Waiting? { PersistKeeps(s, c, f, cut); }
    case Publish(c) => if Row(s, c) && s.stages[c].Holding? { PublishKeeps(s, c); }
    case Close(c) => if Row(s, c) && s.stages[c].Waiting? { StageKeeps(s, c, Ended); }
    case Retire(c) => if Row(s, c) && s.stages[c].Ended? { StageKeeps(s, c, Retired); }
    case Ask(c) => AskKeeps(s, c);
    case Join(u) => if Sub(s, u) && s.phases[u].Granted? { JoinKeeps(s, u); }
    case Deliver(u) => if CanDeliver(s, u) { DeliverKeeps(s, u); }
    case Lag(u) => if Sub(s, u) && Lagging(s, u) { LagKeeps(s, u); }
    case Hear(u) => if CanHear(s, u) { HearKeeps(s, u); }
    case ReadLog(u) => if Sub(s, u) && s.phases[u].Absent? { ReadLogKeeps(s, u); }
    case Replay(u) => if Sub(s, u) && s.phases[u].Replaying? { ReplayKeeps(s, u); }
    case Abandon(u) => if u < |s.phases| { AbandonKeeps(s, u); }
    case Crash => CrashKeeps(s);
  }

  lemma {:induction false} EveryRunKeeps(steps: seq<Step>)
    ensures Inv(Run(steps))
    decreases |steps|
  {
    if steps != [] {
      EveryRunKeeps(steps[..|steps| - 1]);
      StepKeeps(Run(steps[..|steps| - 1]), steps[|steps| - 1]);
    }
  }
}
