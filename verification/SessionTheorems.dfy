/** What live, late and after-the-fact observers of one call get to see, over every run. */
module SessionTheorems {
  import opened Frames
  import opened LineFile
  import opened Session
  import Fold

  // ---- Await exactness ----

  predicate Gapless(fs: seq<Frame>, sent: seq<Frame>) {
    sent <= fs && NoTerminal(sent)
  }

  /** The whole sequence with its own terminal; or a gap-free part of it closed by one synthetic failure,
      because the fan-out closed without a terminal or the receiver fell more than 256 frames behind. */
  ghost predicate ExactEnd(fs: seq<Frame>, retired: bool, sent: seq<Frame>) {
    || (sent == fs && EndsInTerminal(fs) && WellTerminated(fs))
    || exists k :: && 0 <= k <= |fs| && Gapless(fs, fs[..k]) && sent == fs[..k] + [FAILED_TERMINAL]
                   && ((k == |fs| && retired) || k + 256 < |fs|)
  }

  predicate LiveEnd(p: Phase) {
    p == Finished(OwnTerminal) || p == Finished(FanoutClosed) || p == Finished(Lagged)
  }

  lemma LaggedExact(fs: seq<Frame>, stage: Stage, log: seq<Op<Record>>, c: nat, sent: seq<Frame>)
    requires EndFits(fs, stage, log, c, Lagged, sent)
    ensures ExactEnd(fs, stage.Retired?, sent) && EndsInTerminal(sent) && WellTerminated(sent)
  {
    var k :| 0 <= k < |fs| && k + FANOUT < |fs| && NoTerminal(fs[..k]) && sent == fs[..k] + [FAILED_TERMINAL];
    assert Gapless(fs, fs[..k]);
    assert sent[..|sent| - 1] == fs[..k];
  }

  lemma HeardExact(fs: seq<Frame>, stage: Stage, log: seq<Op<Record>>, c: nat, why: Reason, sent: seq<Frame>)
    requires EndFits(fs, stage, log, c, why, sent) && WellTerminated(fs) && (why.OwnTerminal? || why.FanoutClosed?)
    ensures ExactEnd(fs, stage.Retired?, sent) && EndsInTerminal(sent) && WellTerminated(sent)
  {
    assert fs[..|fs|] == fs;
    if why.FanoutClosed? {
      assert Gapless(fs, fs[..|fs|]);
      assert sent[..|sent| - 1] == fs;
    }
  }

  /** While it follows, and when it ends. */
  ghost predicate Exact(s: State, u: nat)
    requires Sub(s, u)
  {
    var fs, sent := s.frames[s.asked[u]], s.outs[u];
    && (s.phases[u].Following? ==> Gapless(fs, sent))
    && (LiveEnd(s.phases[u]) ==>
          ExactEnd(fs, s.stages[s.asked[u]].Retired?, sent) && EndsInTerminal(sent) && WellTerminated(sent))
  }

  lemma ExactNow(s: State, u: nat)
    requires Inv(s) && Sub(s, u)
    ensures Exact(s, u)
  {
    var c := s.asked[u];
    assert Fit(s, u);
    assert StageFits(s.frames[c], s.stages[c]);
    match s.phases[u]
    case Finished(Lagged) => LaggedExact(s.frames[c], s.stages[c], s.log, c, s.outs[u]);
    case Finished(OwnTerminal) => HeardExact(s.frames[c], s.stages[c], s.log, c, OwnTerminal, s.outs[u]);
    case Finished(FanoutClosed) => HeardExact(s.frames[c], s.stages[c], s.log, c, FanoutClosed, s.outs[u]);
    case _ =>
  }

  lemma AwaitExact(steps: seq<Step>, u: nat)
    requires Sub(Run(steps), u)
    ensures Exact(Run(steps), u)
  {
    EveryRunKeeps(steps);
    ExactNow(Run(steps), u);
  }

  /** A subscriber of a retired call is never left waiting, unless for one that is about to join. */
  lemma AlwaysEnds(steps: seq<Step>, u: nat)
    requires Sub(Run(steps), u) && Run(steps).phases[u].Following? && Run(steps).stages[Run(steps).asked[u]].Retired?
    ensures var s := Run(steps);
            || CanDeliver(s, u) || Lagging(s, u) || CanHear(s, u)
            || exists v: nat :: Sub(s, v) && s.asked[v] == s.asked[u] && s.phases[v].Granted?
  {
    EveryRunKeeps(steps);
    var s := Run(steps);
    assert Fit(s, u);
    if Joining(s.asked, s.phases, s.asked[u]) {
      var v :| 0 <= v < |s.asked| && v < |s.phases| && s.asked[v] == s.asked[u] && s.phases[v].Granted?;
      assert Sub(s, v);
    }
  }

  predicate Unattended(s: State, u: nat)
    requires Sub(s, u)
  {
    s.phases[u].Following? && s.stages[s.asked[u]].Retired? && !Joining(s.asked, s.phases, s.asked[u])
  }

  /** One step of a subscriber that follows a retired call: it ends, or is one frame further. */
  lemma OneFurther(s: State, u: nat) returns (step: Step)
    requires Inv(s) && Sub(s, u) && Unattended(s, u)
    ensures var t := Apply(s, step);
            && Sub(t, u) && t.asked == s.asked && t.frames == s.frames && |t.outs[u]| == |s.outs[u]| + 1
            && (t.phases[u].Finished? || Unattended(t, u))
  {
    assert Fit(s, u);
    if CanDeliver(s, u) {
      step := Deliver(u);
      FewerJoin(s, Apply(s, step), u);
    } else if Lagging(s, u) {
      step := Lag(u);
    } else {
      step := Hear(u);
    }
  }

  lemma FewerJoin(s: State, t: State, u: nat)
    requires u < |s.phases| && u < |s.asked| && !Joining(s.asked, s.phases, s.asked[u])
    requires t.asked == s.asked && |t.phases| == |s.phases| && !t.phases[u].Granted?
    requires forall v | 0 <= v < |s.phases| && v != u :: t.phases[v] == s.phases[v]
    ensures !Joining(t.asked, t.phases, s.asked[u])
  {
  }

  /** The end of a retired call comes for everyone who follows it: some further steps of the subscriber alone finish its stream. */
  lemma {:induction false} ComesToEnd(steps: seq<Step>, u: nat) returns (more: seq<Step>)
    requires Sub(Run(steps), u) && Unattended(Run(steps), u)
    ensures Sub(Run(steps + more), u) && LiveEnd(Run(steps + more).phases[u])
    decreases |Run(steps).frames[Run(steps).asked[u]]| + 1 - |Run(steps).outs[u]|
  {
    hide Apply;
    EveryRunKeeps(steps);
    var s := Run(steps);
    Within(s, u);
    var step := OneFurther(s, u);
    RunSnoc(steps, step);
    if Apply(s, step).phases[u].Finished? {
      more := [step];
      EndsLive(s, u, step);
    } else {
      more := ComesToEnd(steps + [step], u);
      assert steps + [step] + more == steps + ([step] + more);
      more := [step] + more;
    }
  }

  lemma Within(s: State, u: nat)
    requires Inv(s) && Sub(s, u) && s.phases[u].Following?
    ensures |s.outs[u]| <= |s.frames[s.asked[u]]|
  {
    assert Fit(s, u);
  }

  /** A follower's stream ends live. */
  lemma EndsLive(s: State, u: nat, step: Step)
    requires Sub(s, u) && s.phases[u].Following? && Sub(Apply(s, step), u) && Apply(s, step).phases[u].Finished?
    ensures LiveEnd(Apply(s, step).phases[u])
  {
  }

  // ---- What of the log can be read ----

  /** A write that costs call `c` a record: its own, cut short or landing on an unfinished line; or any that runs into
      a record of the call that lacked only its newline. */
  predicate LossAt(log: seq<Op<Record>>, i: nat, c: nat)
    requires i < |log|
  {
    var before, op := log[..i], log[i];
    || (op.record.call == c && (op.cut.Nothing? || op.cut.Part? || Tail(before) != []))
    || (!op.cut.Nothing? && ShowsTail(before) && Tail(before)[0].record.call == c)
  }

  ghost predicate NoLoss(log: seq<Op<Record>>, c: nat) {
    forall i | 0 <= i < |log| :: !LossAt(log, i, c)
  }

  lemma NoLossStep(log: seq<Op<Record>>, c: nat)
    requires log != []
    ensures NoLoss(log, c) <==> NoLoss(log[..|log| - 1], c) && !LossAt(log, |log| - 1, c)
  {
    var init := log[..|log| - 1];
    forall i | 0 <= i < |init| ensures LossAt(init, i, c) <==> LossAt(log, i, c) {
      assert init[..i] == log[..i];
    }
  }

  lemma ShownOf(log: seq<Op<Record>>, c: nat)
    ensures RecordsOf(Shown(log), c) == RecordsOf(Committed(log), c) +
            if ShowsTail(log) && Tail(log)[0].record.call == c then [Tail(log)[0].record.frame] else []
  {
    if ShowsTail(log) {
      RecordsSnoc(Committed(log), Tail(log)[0].record, c);
    } else {
      assert Shown(log) == Committed(log);
    }
  }

  /** Of a call's writes all can be read if none was lost, and fewer otherwise. */
  lemma {:induction false} Survivors(log: seq<Op<Record>>, c: nat)
    requires AllClean(log)
    ensures if NoLoss(log, c) then RecordsOf(Shown(log), c) == WrittenOf(log, c)
            else |RecordsOf(Shown(log), c)| < |WrittenOf(log, c)|
    decreases |log|
  {
    if log != [] {
      var init, op := log[..|log| - 1], log[|log| - 1];
      Survivors(init, c);
      NoLossStep(log, c);
      SurvivorStep(init, op, c);
      assert init + [op] == log;
    }
  }

  lemma SurvivorStep(init: seq<Op<Record>>, op: Op<Record>, c: nat)
    requires Clean(op)
    ensures var log := init + [op];
            var shown, was := RecordsOf(Shown(log), c), RecordsOf(Shown(init), c);
            var own := if op.record.call == c then [op.record.frame] else [];
            && WrittenOf(log, c) == WrittenOf(init, c) + own
            && if LossAt(log, |init|, c) then |shown| < |was + own| else shown == was + own
  {
    var log := init + [op];
    assert log[..|init|] == init;
    RecordsSnoc(Records(init), op.record, c);
    ShownSnoc(init, op);
    ShownOf(init, c);
    RecordsSnoc(Shown(init), op.record, c);
  }

  // ---- Persisted first ----

  lemma {:induction false} ErasedPrefix(a: seq<Frame>, b: seq<Frame>)
    requires a <= b
    ensures Erased(a) <= Erased(b)
    decreases |b|
  {
    if a != b {
      ErasedPrefix(a, b[..|b| - 1]);
    }
  }

  /** Whatever a live subscriber was sent was written to the log before: its recorded frames are a prefix of the
      call's writes, which are those of everything published and of at most one frame more. As long as none
      of them was lost, they can be read there. */
  lemma PersistedFirst(steps: seq<Step>, u: nat)
    requires Sub(Run(steps), u)
    ensures var s := Run(steps);
            var c := s.asked[u];
            && Erased(s.frames[c]) <= WrittenOf(s.log, c)
            && |WrittenOf(s.log, c)| <= |Erased(s.frames[c])| + 1
            && (s.phases[u].Following? || s.phases[u] == Finished(OwnTerminal) ==>
                  && Erased(s.outs[u]) <= WrittenOf(s.log, c)
                  && (AllClean(s.log) && NoLoss(s.log, c) ==> Erased(s.outs[u]) <= ReadOut(s.log, c)))
  {
    EveryRunKeeps(steps);
    var s := Run(steps);
    var c := s.asked[u];
    assert Fit(s, u);
    assert StageFits(s.frames[c], s.stages[c]);
    OneAhead(s.frames[c], s.stages[c]);
    if s.phases[u].Following? {
      ErasedPrefix(s.outs[u], s.frames[c]);
    }
    if AllClean(s.log) {
      Survivors(s.log, c);
    }
  }

  lemma OneAhead(fs: seq<Frame>, stage: Stage)
    requires StageFits(fs, stage)
    ensures Erased(fs) <= Erased(Written(fs, stage)) && |Erased(Written(fs, stage))| <= |Erased(fs)| + 1
  {
    match stage
    case Holding(f) => ErasedSnoc(fs, f);
    case Lost(held) =>
      if held != [] {
        assert held == [held[0]];
        ErasedSnoc(fs, held[0]);
      } else {
        assert fs + held == fs;
      }
    case _ =>
  }

  // ---- Replay ----

  lemma WrittenEnds(fs: seq<Frame>, stage: Stage)
    requires StageFits(fs, stage)
    ensures WellTerminated(Written(fs, stage))
  {
    match stage
    case Holding(f) => assert (fs + [f])[..|fs|] == fs;
    case Lost(held) => assert held != [] ==> (fs + held)[..|fs|] == fs; assert fs + [] == fs;
    case _ =>
  }

  /** Awaiting a call that is gone, also after a crash, replays what can be read of its writes, closed by a failure if
      the last of it is no terminal. That is everything published, and a frame held at a crash, without images and
      empty frames, exactly if none of the writes was lost; then the failure is added exactly if no terminal was written. */
  lemma ReplayAgrees(steps: seq<Step>, u: nat)
    requires Sub(Run(steps), u)
    ensures var s := Run(steps);
            var c, p := s.asked[u], s.phases[u];
            var whole := Written(s.frames[c], s.stages[c]);
            && (p.Finished? && p.why.Replayed? ==>
                  var at := p.why.at;
                  && at <= |s.log| && s.outs[u] == Closed(ReadOut(s.log[..at], c))
                  && (ReadOut(s.log[..at], c) == Erased(whole) <==> NoLoss(s.log[..at], c))
                  && (NoLoss(s.log[..at], c) ==> (s.outs[u] == Erased(whole) <==> EndsInTerminal(whole))))
            && (p.NotFound? ==>
                  && p.at <= |s.log| && s.outs[u] == []
                  && (AllClean(s.log[..p.at]) && NoLoss(s.log[..p.at], c) ==> Erased(whole) == []))
  {
    hide Inv, Run;
    EveryRunKeeps(steps);
    ReplayNow(Run(steps), u);
  }

  lemma ReplayNow(s: State, u: nat)
    requires Inv(s) && Sub(s, u)
    ensures var c, p := s.asked[u], s.phases[u];
            var whole := Written(s.frames[c], s.stages[c]);
            && (p.Finished? && p.why.Replayed? ==>
                  var at := p.why.at;
                  && at <= |s.log| && s.outs[u] == Closed(ReadOut(s.log[..at], c))
                  && (ReadOut(s.log[..at], c) == Erased(whole) <==> NoLoss(s.log[..at], c))
                  && (NoLoss(s.log[..at], c) ==> (s.outs[u] == Erased(whole) <==> EndsInTerminal(whole))))
            && (p.NotFound? ==>
                  && p.at <= |s.log| && s.outs[u] == []
                  && (AllClean(s.log[..p.at]) && NoLoss(s.log[..p.at], c) ==> Erased(whole) == []))
  {
    hide WrittenOf, RecordsOf, Erased, NoLoss, Shown, AllClean;
    var c, p := s.asked[u], s.phases[u];
    assert Fit(s, u);
    assert StageFits(s.frames[c], s.stages[c]);
    WrittenEnds(s.frames[c], s.stages[c]);
    ErasedTerminal(Written(s.frames[c], s.stages[c]));
    if p.Finished? && p.why.Replayed? {
      assert AllClean(s.log[..p.why.at]);
      Survivors(s.log[..p.why.at], c);
    } else if p.NotFound? && AllClean(s.log[..p.at]) {
      Survivors(s.log[..p.at], c);
    }
  }

  // ---- What asking for a call gives ----

  /** How many calls a run starts. */
  function Starts(steps: seq<Step>): nat {
    if steps == [] then 0 else Starts(steps[..|steps| - 1]) + if steps[|steps| - 1].Start? then 1 else 0
  }

  lemma RowsKept(s: State, step: Step)
    ensures |Apply(s, step).frames| == |s.frames| + if step.Start? then 1 else 0
  {
  }

  lemma {:induction false} CallsStarted(steps: seq<Step>)
    ensures |Run(steps).frames| == Starts(steps)
    decreases |steps|
  {
    if steps != [] {
      hide Apply;
      CallsStarted(steps[..|steps| - 1]);
      RowsKept(Run(steps[..|steps| - 1]), steps[|steps| - 1]);
    }
  }

  /** After any run a client that asks for a call is told it was never issued exactly if fewer calls were started; is sent to
      the log exactly if the call was retired or lost; and is otherwise let in to follow it. */
  lemma AskAnswers(steps: seq<Step>, c: nat)
    ensures var s, t := Run(steps), Run(steps + [Ask(c)]);
            var u := |s.asked|;
            && t.asked == s.asked + [c] && |t.phases| == |t.outs| == u + 1 && t.outs[u] == [] && |s.stages| == Starts(steps)
            && (t.phases[u] == NeverIssued <==> c >= Starts(steps))
            && (t.phases[u] == Absent <==> c < Starts(steps) && (s.stages[c].Retired? || s.stages[c].Lost?))
            && (t.phases[u] == Granted <==> c < Starts(steps) && !s.stages[c].Retired? && !s.stages[c].Lost?)
  {
    EveryRunKeeps(steps);
    CallsStarted(steps);
    RunSnoc(steps, Ask(c));
  }

  // ---- Following a live call ----

  function Delivers(u: nat, n: nat): seq<Step> {
    if n == 0 then [] else Delivers(u, n - 1) + [Deliver(u)]
  }

  lemma DeliverOne(s: State, u: nat, whole: seq<Frame>, pos: nat, n: nat)
    requires n < |whole| && Sub(s, u) && s.phases[u] == Following(whole[n..], pos) && s.outs[u] == whole[..n]
    ensures var t := Apply(s, Deliver(u));
            && Sub(t, u) && t.asked == s.asked && t.outs[u] == whole[..n + 1]
            && t.frames == s.frames && t.casts == s.casts && t.stages == s.stages
            && t.phases[u] == if whole[n].Complete? then Finished(OwnTerminal) else Following(whole[n + 1..], pos)
  {
    assert whole[n..][1..] == whole[n + 1..] && whole[..n] + [whole[n]] == whole[..n + 1];
  }

  /** The snapshot is delivered frame by frame. */
  lemma {:induction false} DeliversAll(steps: seq<Step>, u: nat, whole: seq<Frame>, pos: nat, n: nat)
    requires Sub(Run(steps), u) && Run(steps).phases[u] == Following(whole, pos) && Run(steps).outs[u] == []
    requires n <= |whole| && WellTerminated(whole)
    ensures var s, t := Run(steps), Run(steps + Delivers(u, n));
            && Sub(t, u) && t.asked == s.asked && t.frames == s.frames && t.casts == s.casts && t.stages == s.stages
            && t.outs[u] == whole[..n]
            && t.phases[u] == if n > 0 && whole[n - 1].Complete? then Finished(OwnTerminal) else Following(whole[n..], pos)
    decreases n
  {
    hide Run, Apply;
    if n == 0 {
      assert steps + [] == steps && whole[0..] == whole;
    } else {
      DeliversAll(steps, u, whole, pos, n - 1);
      assert steps + Delivers(u, n) == steps + Delivers(u, n - 1) + [Deliver(u)];
      RunSnoc(steps + Delivers(u, n - 1), Deliver(u));
      if n > 1 {
        assert whole[..|whole| - 1][n - 2] == whole[n - 2];
      }
      DeliverOne(Run(steps + Delivers(u, n - 1)), u, whole, pos, n - 1);
    }
  }

  lemma JoinedAt(s: State, c: nat)
    requires Row(s, c) && !Gone(s.stages[c]) && |s.asked| == |s.phases| == |s.outs|
    ensures var t := Apply(Apply(s, Ask(c)), Join(|s.asked|));
            && Sub(t, |s.asked|) && t.asked == s.asked + [c] && t.outs[|s.asked|] == []
            && t.phases[|s.asked|] == Following(s.frames[c], |s.casts[c]|)
            && t.frames == s.frames && t.casts == s.casts && t.stages == s.stages
  {
  }

  function Followed(steps: seq<Step>, c: nat): seq<Step> {
    var u := |Run(steps).asked|;
    steps + [Ask(c)] + [Join(u)] + Delivers(u, if c < |Run(steps).frames| then |Run(steps).frames[c]| else 0)
  }

  /** From every reachable state: a client that asks for a call that is neither retired nor lost, and joins, is sent the
      whole buffer, however late it comes; it is through if that ends in a terminal and goes on listening if not. */
  lemma FollowedLive(steps: seq<Step>, c: nat)
    requires Row(Run(steps), c) && !Run(steps).stages[c].Retired? && !Run(steps).stages[c].Lost?
    ensures var s, t := Run(steps), Run(Followed(steps, c));
            var u, fs := |s.asked|, s.frames[c];
            && Sub(t, u) && t.asked[u] == c && t.outs[u] == fs && t.frames == s.frames && t.casts == s.casts && t.stages == s.stages
            && (fs != [] && fs[|fs| - 1].Complete? ==> t.phases[u] == Finished(OwnTerminal))
            && (fs == [] || !fs[|fs| - 1].Complete? ==> t.phases[u] == Following([], |s.casts[c]|))
  {
    var s := Run(steps);
    var u, fs := |s.asked|, s.frames[c];
    EveryRunKeeps(steps);
    assert StageFits(fs, s.stages[c]);
    RunSnoc(steps, Ask(c));
    RunSnoc(steps + [Ask(c)], Join(u));
    JoinedAt(s, c);
    hide Run;
    DeliversAll(steps + [Ask(c)] + [Join(u)], u, fs, |s.casts[c]|, |fs|);
    assert fs[|fs|..] == [] && fs[..|fs|] == fs;
  }

  lemma PublishedHeard(s: State, u: nat, c: nat, f: Frame)
    requires Sub(s, u) && s.asked[u] == c && s.phases[u] == Following([], |s.casts[c]|) && s.stages[c] == Holding(f)
    ensures var t := Apply(Apply(s, Publish(c)), Deliver(u));
            Sub(t, u) && t.outs[u] == s.outs[u] + [f] && c < |t.frames| && t.frames[c] == s.frames[c] + [f]
  {
    assert Listens(s.asked, s.phases, u, c);
    var v := DoPublish(s, c);
    assert v.casts[c] == s.casts[c] + [f];
    assert !Lagging(v, u);
  }

  lemma PersistHolds(s: State, u: nat, c: nat, f: Frame, cut: Cut)
    requires Sub(s, u) && s.asked[u] == c && s.stages[c].Waiting?
    ensures var t := Apply(s, Persist(c, f, cut));
            && Sub(t, u) && t.asked == s.asked && t.phases == s.phases && t.outs == s.outs
            && t.casts == s.casts && t.frames == s.frames && t.stages[c] == Holding(f)
  {
  }

  /** And the next frame of such a call reaches it too, whatever becomes of the write. */
  lemma NextFrameHeard(steps: seq<Step>, c: nat, f: Frame, cut: Cut)
    requires Row(Run(steps), c) && Run(steps).stages[c].Waiting?
    ensures var s := Run(steps);
            var u := |s.asked|;
            var t := Run(Followed(steps, c) + [Persist(c, f, cut)] + [Publish(c)] + [Deliver(u)]);
            Sub(t, u) && t.outs[u] == s.frames[c] + [f] && c < |t.frames| && t.frames[c] == s.frames[c] + [f]
  {
    hide Run, Apply, Followed;
    var s := Run(steps);
    var u := |s.asked|;
    StillOpen(steps, c);
    FollowedLive(steps, c);
    var all := Followed(steps, c);
    RunSnoc(all, Persist(c, f, cut));
    PersistHolds(Run(all), u, c, f, cut);
    RunSnoc(all + [Persist(c, f, cut)], Publish(c));
    RunSnoc(all + [Persist(c, f, cut)] + [Publish(c)], Deliver(u));
    PublishedHeard(Run(all + [Persist(c, f, cut)]), u, c, f);
  }

  lemma StillOpen(steps: seq<Step>, c: nat)
    requires Row(Run(steps), c) && Run(steps).stages[c].Waiting?
    ensures NoTerminal(Run(steps).frames[c])
  {
    EveryRunKeeps(steps);
    assert StageFits(Run(steps).frames[c], Run(steps).stages[c]);
  }

  // ---- After a crash ----

  function Replays(u: nat, n: nat): seq<Step> {
    if n == 0 then [] else Replays(u, n - 1) + [Replay(u)]
  }

  lemma RunSnoc(steps: seq<Step>, step: Step)
    ensures Run(steps + [step]) == Apply(Run(steps), step)
  {
    assert (steps + [step])[..|steps|] == steps;
  }

  lemma {:induction false} ReplaysAll(steps: seq<Step>, u: nat, whole: seq<Frame>, at: nat, n: nat)
    requires Sub(Run(steps), u) && Run(steps).phases[u] == Replaying(whole, at) && Run(steps).outs[u] == [] && n <= |whole|
    ensures var s := Run(steps + Replays(u, n));
            Sub(s, u) && s.asked == Run(steps).asked && s.phases[u] == Replaying(whole[n..], at) && s.outs[u] == whole[..n]
    decreases n
  {
    hide Run, Apply;
    if n == 0 {
      assert steps + [] == steps;
    } else {
      ReplaysAll(steps, u, whole, at, n - 1);
      assert steps + Replays(u, n) == steps + Replays(u, n - 1) + [Replay(u)];
      RunSnoc(steps + Replays(u, n - 1), Replay(u));
      ReplayOne(Run(steps + Replays(u, n - 1)), u, whole, at, n - 1);
    }
  }

  lemma ReplayOne(s: State, u: nat, whole: seq<Frame>, at: nat, n: nat)
    requires n < |whole| && Sub(s, u) && s.phases[u] == Replaying(whole[n..], at) && s.outs[u] == whole[..n]
    ensures var t := Apply(s, Replay(u));
            && Sub(t, u) && t.asked == s.asked && t.phases[u] == Replaying(whole[n + 1..], at) && t.outs[u] == whole[..n + 1]
  {
    assert whole[n..][1..] == whole[n + 1..] && whole[..n] + [whole[n]] == whole[..n + 1];
  }

  /** From any state: the harness crashes, and a client asks for a call that was issued. It is sent what can be read of
      the call's writes, closed by a failure if need be. */
  lemma ReplayedAfterCrash(steps: seq<Step>, c: nat)
    requires Row(Run(steps), c) && ReadOut(Run(steps).log, c) != []
    ensures var s := Run(steps);
            var u, whole := |s.asked|, Closed(ReadOut(s.log, c));
            var t := Run(steps + [Crash] + [Ask(c)] + [ReadLog(u)] + Replays(u, |whole|) + [Replay(u)]);
            Sub(t, u) && t.asked[u] == c && t.outs[u] == whole && t.phases[u] == Finished(Replayed(|s.log|))
  {
    hide ReadOut;
    var s := Run(steps);
    var u, whole := |s.asked|, Closed(ReadOut(s.log, c));
    EveryRunKeeps(steps);
    RunSnoc(steps, Crash);
    RunSnoc(steps + [Crash], Ask(c));
    AskedAfterCrash(s, c);
    var asked := steps + [Crash] + [Ask(c)] + [ReadLog(u)];
    RunSnoc(steps + [Crash] + [Ask(c)], ReadLog(u));
    hide Run;
    ReplaysAll(asked, u, whole, |s.log|, |whole|);
    RunSnoc(asked + Replays(u, |whole|), Replay(u));
    assert whole[|whole|..] == [] && whole[..|whole|] == whole;
  }

  lemma AskedAfterCrash(s: State, c: nat)
    requires Row(s, c) && |s.asked| == |s.phases| == |s.outs| && ReadOut(s.log, c) != []
    ensures var t := Apply(Apply(Apply(s, Crash), Ask(c)), ReadLog(|s.asked|));
            && Sub(t, |s.asked|) && t.asked[|s.asked|] == c && t.outs[|s.asked|] == []
            && t.phases[|s.asked|] == Replaying(Closed(ReadOut(s.log, c)), |s.log|)
  {
    hide ReadOut;
  }

  // ---- Folding ----

  lemma {:induction false} ErasedFolds(fs: seq<Frame>)
    ensures Fold.StdoutLines(Erased(fs)) == Fold.StdoutLines(fs) && Fold.StderrLines(Erased(fs)) == Fold.StderrLines(fs)
    ensures Fold.LastTerminal(Erased(fs)) == Fold.LastTerminal(fs) && Fold.Pictures(Erased(fs)) == []
    decreases |fs|
  {
    if fs != [] {
      var init, f := fs[..|fs| - 1], fs[|fs| - 1];
      ErasedFolds(init);
      if Recorded(f) {
        assert Erased(fs)[..|Erased(init)|] == Erased(init);
      } else {
        assert Erased(fs) == Erased(init);
      }
    }
  }

  lemma FailedFolds(fs: seq<Frame>)
    ensures var g := fs + [FAILED_TERMINAL];
            && Fold.StdoutLines(g) == Fold.StdoutLines(fs) && Fold.StderrLines(g) == Fold.StderrLines(fs)
            && Fold.LastTerminal(g) == FAILED_TERMINAL && Fold.Pictures(g) == Fold.Pictures(fs)
  {
    assert (fs + [FAILED_TERMINAL])[..|fs|] == fs;
  }

  lemma ClosedFolds(fs: seq<Frame>)
    requires WellTerminated(fs)
    ensures var live, replayed := Closed(fs), Closed(Erased(fs));
            && Fold.ResultText(replayed) == Fold.ResultText(live) && Fold.ErrorBit(replayed) == Fold.ErrorBit(live)
            && Fold.Pictures(replayed) == []
  {
    ErasedTerminal(fs);
    ErasedFolds(fs);
    FailedFolds(fs);
    FailedFolds(Erased(fs));
  }

  /** A subscriber that heard the whole call and one that replayed it without loss fold to the same text and error bit. */
  lemma SameResult(steps: seq<Step>, u: nat, v: nat, at: nat)
    requires Sub(Run(steps), u) && Sub(Run(steps), v) && Run(steps).asked[u] == Run(steps).asked[v]
    requires Run(steps).phases[u] == Finished(OwnTerminal) || Run(steps).phases[u] == Finished(FanoutClosed)
    requires Run(steps).phases[v] == Finished(Replayed(at)) && at <= |Run(steps).log|
    requires NoLoss(Run(steps).log[..at], Run(steps).asked[v])
    ensures var live, replayed := Run(steps).outs[u], Run(steps).outs[v];
            && Fold.ResultText(replayed) == Fold.ResultText(live)
            && Fold.Assembled(replayed).isError == Fold.Assembled(live).isError
            && Fold.Pictures(replayed) == []
  {
    hide NoLoss;
    EveryRunKeeps(steps);
    var s := Run(steps);
    HeardWhole(s, u);
    ReplayNow(s, v);
    ClosedFolds(s.frames[s.asked[u]]);
  }

  lemma HeardWhole(s: State, u: nat)
    requires Inv(s) && Sub(s, u) && (s.phases[u] == Finished(OwnTerminal) || s.phases[u] == Finished(FanoutClosed))
    ensures var fs, stage := s.frames[s.asked[u]], s.stages[s.asked[u]];
            s.outs[u] == Closed(fs) && WellTerminated(fs) && Written(fs, stage) == fs
  {
    var c := s.asked[u];
    assert Fit(s, u);
    assert StageFits(s.frames[c], s.stages[c]);
    assert s.frames[c] + [] == s.frames[c];
  }

  // ---- The loops ----

  /** Frames up to and including the first terminal. */
  function UpToTerminal(fs: seq<Frame>): seq<Frame> {
    if fs == [] then [] else if IsTerminal(fs[0]) then [fs[0]] else [fs[0]] + UpToTerminal(fs[1..])
  }

  function Appends(log: seq<Op<Record>>, c: nat, fs: seq<Frame>, cuts: seq<Cut>): seq<Op<Record>>
    requires |fs| <= |cuts|
  {
    if fs == [] then log else Appended(Appends(log, c, fs[..|fs| - 1], cuts), c, fs[|fs| - 1], cuts[|fs| - 1])
  }

  /** A toolset call's consumer: what its channel yields, up to the terminal, is persisted and published. */
  method Consume(arriving: seq<Frame>, log: seq<Op<Record>>, c: nat, cuts: seq<Cut>)
      returns (log': seq<Op<Record>>, frames: seq<Frame>)
    requires |arriving| <= |cuts|
    ensures frames <= arriving && (forall i | 0 <= i < |frames| - 1 :: !frames[i].Complete?)
    ensures frames == arriving || (frames != [] && frames[|frames| - 1].Complete?)
    ensures log <= log' && forall x :: WrittenOf(log', x) == WrittenOf(log, x) + if x == c then Erased(frames) else []
    ensures frames == UpToTerminal(arriving) && |frames| <= |cuts| && log' == Appends(log, c, frames, cuts)
    ensures WellTerminated(frames)
  {
    log', frames := log, [];
    for i := 0 to |arriving|
      invariant frames == arriving[..i] && NoTerminal(frames) && log' == Appends(log, c, frames, cuts)
    {
      PassStep(frames, arriving[i], arriving[i + 1..]);
      assert arriving == frames + [arriving[i]] + arriving[i + 1..];
      assert (frames + [arriving[i]])[..i] == frames;
      log' := Appended(log', c, arriving[i], cuts[i]);
      frames := frames + [arriving[i]];
      if IsTerminal(arriving[i]) {
        AppendsWrite(log, c, frames, cuts);
        return;
      }
    }
    NoTerminalWhole(arriving);
    AppendsWrite(log, c, frames, cuts);
  }

  lemma {:induction false} AppendsWrite(log: seq<Op<Record>>, c: nat, fs: seq<Frame>, cuts: seq<Cut>)
    requires |fs| <= |cuts|
    ensures var t := Appends(log, c, fs, cuts);
            log <= t && forall x :: WrittenOf(t, x) == WrittenOf(log, x) + if x == c then Erased(fs) else []
    decreases |fs|
  {
    if fs != [] {
      var init, f := fs[..|fs| - 1], fs[|fs| - 1];
      var t := Appends(log, c, init, cuts);
      AppendsWrite(log, c, init, cuts);
      ErasedSnoc(init, f);
      forall x ensures WrittenOf(Appends(log, c, fs, cuts), x) == WrittenOf(log, x) + if x == c then Erased(fs) else [] {
        WrittenSnoc(t, c, f, cuts[|fs| - 1], x);
      }
    }
  }

  /** A subscriber's task: the snapshot, then the fan-out until it errs, each only up to a terminal;
      then a synthetic failure if none was seen. */
  method Follow(snapshot: seq<Frame>, live: seq<Frame>) returns (sent: seq<Frame>)
    ensures sent != [] && sent[|sent| - 1].Complete? && forall i | 0 <= i < |sent| - 1 :: !sent[i].Complete?
    ensures sent <= snapshot + live || sent == snapshot + live + [Complete(2, -1)]
    ensures sent == Closed(UpToTerminal(snapshot + live))
    ensures EndsInTerminal(sent) && WellTerminated(sent)
  {
    hide UpToTerminal;
    var seen := false;
    assert [] + snapshot + live == snapshot + live == snapshot + live + [];
    sent, seen := Pass([], snapshot, live);
    if !seen {
      assert sent == snapshot;
      sent, seen := Pass(sent, live, []);
    }
    if !seen {
      sent := sent + [FAILED_TERMINAL];
      assert sent[..|sent| - 1] == snapshot + live;
    }
    assert forall i | 0 <= i < |sent| - 1 :: sent[..|sent| - 1][i] == sent[i];
  }

  method Pass(before: seq<Frame>, frames: seq<Frame>, after: seq<Frame>) returns (sent: seq<Frame>, seen: bool)
    requires NoTerminal(before)
    ensures seen ==> sent <= before + frames
    ensures seen ==> sent == UpToTerminal(before + frames + after) && EndsInTerminal(sent) && WellTerminated(sent)
    ensures !seen ==> sent == before + frames && NoTerminal(sent)
    ensures !seen ==> UpToTerminal(sent) == sent
  {
    sent, seen := before, false;
    var i := 0;
    while i < |frames|
      invariant i <= |frames| && NoTerminal(sent) && sent == before + frames[..i]
    {
      PassStep(sent, frames[i], frames[i + 1..] + after);
      assert before + frames + after == sent + [frames[i]] + (frames[i + 1..] + after);
      sent := sent + [frames[i]];
      if IsTerminal(frames[i]) {
        assert sent[..|sent| - 1] == before + frames[..i];
        return sent, true;
      }
      i := i + 1;
    }
    assert before + frames[..i] == before + frames;
    NoTerminalWhole(sent);
  }

  lemma {:induction false} PassStep(before: seq<Frame>, f: Frame, rest: seq<Frame>)
    requires NoTerminal(before)
    ensures IsTerminal(f) ==> UpToTerminal(before + [f] + rest) == before + [f]
    decreases |before|
  {
    if before == [] {
      assert before + [f] + rest == [f] + rest;
    } else {
      PassStep(before[1..], f, rest);
      assert (before + [f] + rest)[1..] == before[1..] + [f] + rest;
      assert before + [f] == [before[0]] + (before[1..] + [f]);
    }
  }

  lemma {:induction false} NoTerminalWhole(fs: seq<Frame>)
    requires NoTerminal(fs)
    ensures UpToTerminal(fs) == fs
    decreases |fs|
  {
    if fs != [] {
      NoTerminalWhole(fs[1..]);
    }
  }

  /** A runtime call publishes its whole response, which has one terminal, last. */
  lemma RuntimeFrames(r: Fold.Response)
    ensures UpToTerminal(Fold.FramesOf(r)) == Fold.FramesOf(r) && EndsInTerminal(Fold.FramesOf(r))
  {
    Fold.BlockFramesFold(r.content);
    var body, fs := Fold.BlockFrames(r.content), Fold.FramesOf(r);
    PassStep(body, fs[|fs| - 1], []);
    assert body + [fs[|fs| - 1]] + [] == fs;
  }
}
