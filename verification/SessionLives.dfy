/** The life of a call: begun, consumed, retired and replayed; and what a crash puts an end to. */
module SessionLives {
  import opened Frames
  import opened LineFile
  import opened Session
  import opened SessionTheorems

  // ---- The consumer's steps ----

  /** Each frame persisted and then published. */
  function Consuming(c: nat, fs: seq<Frame>, cuts: seq<Cut>): seq<Step>
    requires |fs| <= |cuts|
  {
    if fs == [] then []
    else Consuming(c, fs[..|fs| - 1], cuts) + [Persist(c, fs[|fs| - 1], cuts[|fs| - 1])] + [Publish(c)]
  }

  /** The call's buffer, the log and where its consumer stands; every other call and all subscribers as they were. */
  ghost predicate HasRead(s: State, t: State, c: nat, fs: seq<Frame>, log: seq<Op<Record>>) {
    && c == |s.frames| && t.frames == s.frames + [fs] && |t.casts| == |t.stages| == c + 1 && t.log == log
    && t.asked == s.asked && t.phases == s.phases && t.outs == s.outs
    && |s.stages| == c && t.stages[..c] == s.stages
    && t.stages[c] == if fs != [] && fs[|fs| - 1].Complete? then Ended else Waiting
  }

  lemma ReadsOne(s: State, t: State, c: nat, fs: seq<Frame>, log: seq<Op<Record>>, f: Frame, cut: Cut)
    requires HasRead(s, t, c, fs, log) && NoTerminal(fs)
    ensures HasRead(s, Apply(Apply(t, Persist(c, f, cut)), Publish(c)), c, fs + [f], Appended(log, c, f, cut))
  {
    var held := Apply(t, Persist(c, f, cut));
    assert held.stages[..c] == s.stages;
    var r := Apply(held, Publish(c));
    assert r.stages[..c] == s.stages;
    assert r.frames == s.frames + [fs + [f]];
  }

  lemma {:induction false} ReadsAll(steps: seq<Step>, fs: seq<Frame>, cuts: seq<Cut>)
    requires |fs| <= |cuts| && WellTerminated(fs)
    ensures var s := Run(steps);
            var c := |s.frames|;
            HasRead(s, Run(steps + [Start] + Consuming(c, fs, cuts)), c, fs, Appends(s.log, c, fs, cuts))
    decreases |fs|
  {
    hide Apply, HasRead, Run;
    var s := Run(steps);
    var c := |s.frames|;
    if fs == [] {
      EveryRunKeeps(steps);
      RunSnoc(steps, Start);
      assert steps + [Start] + [] == steps + [Start];
      Begun(s);
    } else {
      var init, f, cut := fs[..|fs| - 1], fs[|fs| - 1], cuts[|fs| - 1];
      ReadsAll(steps, init, cuts);
      ReadsNext(steps + [Start] + Consuming(c, init, cuts), s, c, init, Appends(s.log, c, init, cuts), f, cut);
      assert steps + [Start] + Consuming(c, fs, cuts) ==
             steps + [Start] + Consuming(c, init, cuts) + [Persist(c, f, cut)] + [Publish(c)];
      assert init + [f] == fs;
    }
  }

  lemma ReadsNext(before: seq<Step>, s: State, c: nat, fs: seq<Frame>, log: seq<Op<Record>>, f: Frame, cut: Cut)
    requires HasRead(s, Run(before), c, fs, log) && NoTerminal(fs)
    ensures HasRead(s, Run(before + [Persist(c, f, cut)] + [Publish(c)]), c, fs + [f], Appended(log, c, f, cut))
  {
    hide Apply, HasRead, Run;
    RunSnoc(before, Persist(c, f, cut));
    RunSnoc(before + [Persist(c, f, cut)], Publish(c));
    ReadsOne(s, Run(before), c, fs, log, f, cut);
  }

  lemma Begun(s: State)
    requires Inv(s)
    ensures HasRead(s, Apply(s, Start), |s.frames|, [], s.log)
  {
    assert Apply(s, Start).stages[..|s.frames|] == s.stages;
  }

  /** From every reachable state: a call is begun and its consumer reads what arrives for it. The buffer is what arrived, up
      to and with the first terminal, and the log has each of these frames once more; nothing else has changed. The consumer
      has ended exactly if there was a terminal, and goes on to retire the call however it came to its end. */
  lemma CallLives(steps: seq<Step>, arriving: seq<Frame>, cuts: seq<Cut>)
    requires |arriving| <= |cuts|
    ensures var s, fs := Run(steps), UpToTerminal(arriving);
            var c := |s.frames|;
            && |fs| <= |arriving|
            && var read := steps + [Start] + Consuming(c, fs, cuts);
               && HasRead(s, Run(read), c, fs, Appends(s.log, c, fs, cuts))
               && var t := Run(read + [Close(c)] + [Retire(c)]);
                  t == Run(read).(stages := s.stages + [Retired])
  {
    hide Apply, Consuming, Appends;
    UpToEnds(arriving);
    var s, fs := Run(steps), UpToTerminal(arriving);
    var c := |s.frames|;
    ReadsAll(steps, fs, cuts);
    var read := steps + [Start] + Consuming(c, fs, cuts);
    RunSnoc(read, Close(c));
    RunSnoc(read + [Close(c)], Retire(c));
    hide Run;
    Retires(s, Run(read), c, fs, Appends(s.log, c, fs, cuts));
  }

  lemma Retires(s: State, t: State, c: nat, fs: seq<Frame>, log: seq<Op<Record>>)
    requires HasRead(s, t, c, fs, log)
    ensures Apply(Apply(t, Close(c)), Retire(c)) == t.(stages := s.stages + [Retired])
  {
    assert t.stages == t.stages[..c] + [t.stages[c]];
    assert Apply(t, Close(c)).stages == s.stages + [Ended];
  }

  lemma {:induction false} UpToEnds(fs: seq<Frame>)
    ensures UpToTerminal(fs) <= fs && WellTerminated(UpToTerminal(fs))
    decreases |fs|
  {
    if fs != [] && !IsTerminal(fs[0]) {
      UpToEnds(fs[1..]);
      var rest := UpToTerminal(fs[1..]);
      assert fs == [fs[0]] + fs[1..];
      if rest != [] {
        assert ([fs[0]] + rest)[..|rest|] == [fs[0]] + rest[..|rest| - 1];
      }
    }
  }

  // ---- A crash ----

  lemma OverKept(s: State, step: Step, u: nat)
    requires |s.asked| == |s.phases| == |s.outs| && u < |s.phases| && Over(s.phases[u])
    ensures var t := Apply(s, step);
            && |s.outs| <= |t.outs| == |t.phases| && t.outs[u] == s.outs[u]
            && (t.phases[u] == s.phases[u] || t.phases[u].Abandoned?)
  {
  }

  lemma GoneKept(s: State, step: Step, c: nat)
    requires |s.frames| == |s.casts| == |s.stages| && c < |s.stages| && Gone(s.stages[c])
    ensures var t := Apply(s, step);
            && |s.frames| <= |t.frames| == |t.stages| && t.frames[c] == s.frames[c] && t.stages[c] == s.stages[c]
  {
  }

  /** Over for these subscribers and these calls, as they were. */
  ghost predicate AllOver(s: State, t: State) {
    && |s.outs| <= |t.outs| == |t.phases| && |s.frames| <= |t.frames| == |t.stages|
    && (forall u | 0 <= u < |s.outs| ::
          t.outs[u] == s.outs[u] && (t.phases[u].Finished? || t.phases[u].NotFound? || t.phases[u].NeverIssued? || t.phases[u].Abandoned?))
    && (forall c | 0 <= c < |s.frames| :: t.frames[c] == s.frames[c] && (t.stages[c].Retired? || t.stages[c].Lost?))
  }

  lemma OverStays(s: State, t: State, step: Step)
    requires Inv(t) && AllOver(s, t)
    ensures AllOver(s, Apply(t, step))
  {
    assert |t.asked| == |t.phases| == |t.outs| && |t.frames| == |t.casts| == |t.stages|;
    hide Apply, Inv;
    var r := Apply(t, step);
    RowsGrow(t, step);
    forall u | 0 <= u < |s.outs|
      ensures r.outs[u] == s.outs[u] && (r.phases[u].Finished? || r.phases[u].NotFound? || r.phases[u].NeverIssued? || r.phases[u].Abandoned?)
    {
      OverKept(t, step, u);
    }
    forall c | 0 <= c < |s.frames| ensures r.frames[c] == s.frames[c] && (r.stages[c].Retired? || r.stages[c].Lost?) {
      GoneKept(t, step, c);
    }
  }

  lemma RowsGrow(s: State, step: Step)
    requires |s.asked| == |s.phases| == |s.outs| && |s.frames| == |s.casts| == |s.stages|
    ensures var t := Apply(s, step);
            |s.outs| <= |t.outs| == |t.phases| && |s.frames| <= |t.frames| == |t.stages|
  {
  }

  lemma CutsOff(s: State)
    requires Inv(s)
    ensures AllOver(s, Apply(s, Crash)) && Apply(s, Crash).log == s.log
    ensures forall u | 0 <= u < |s.phases| && Over(s.phases[u]) :: Apply(s, Crash).phases[u] == s.phases[u]
  {
    var t := Apply(s, Crash);
    assert forall u | 0 <= u < |s.outs| :: Over(t.phases[u]);
    assert forall c | 0 <= c < |s.frames| :: Gone(t.stages[c]);
  }

  /** A crash ends every stream where it is and every call with what was published; whatever happens later, none of
      these streams gains a frame and none of these calls is followed again. Streams that had come to their end are left
      as they were, and the log is. */
  lemma {:induction false} CrashEnds(steps: seq<Step>, more: seq<Step>)
    ensures var s, t := Run(steps), Run(steps + [Crash]);
            && t.log == s.log && |t.phases| == |s.phases|
            && forall u | 0 <= u < |s.phases| && s.phases[u].Finished? :: t.phases[u] == s.phases[u]
    ensures AllOver(Run(steps), Run(steps + [Crash] + more))
    decreases |more|
  {
    hide Apply, AllOver, Inv;
    EveryRunKeeps(steps);
    RunSnoc(steps, Crash);
    CutsOff(Run(steps));
    SameRows(Run(steps));
    if more == [] {
      assert steps + [Crash] + more == steps + [Crash];
    } else {
      var init, step := more[..|more| - 1], more[|more| - 1];
      CrashEnds(steps, init);
      assert steps + [Crash] + more == steps + [Crash] + init + [step];
      EveryRunKeeps(steps + [Crash] + init);
      RunSnoc(steps + [Crash] + init, step);
      OverStays(Run(steps), Run(steps + [Crash] + init), step);
    }
  }

  lemma SameRows(s: State)
    ensures |Apply(s, Crash).phases| == |s.phases|
  {
  }

  // ---- Replay ----

  lemma ReadsLog(s: State, c: nat)
    requires Row(s, c) && Gone(s.stages[c]) && |s.asked| == |s.phases| == |s.outs|
    ensures var t := Apply(Apply(s, Ask(c)), ReadLog(|s.asked|));
            && Sub(t, |s.asked|) && t.asked == s.asked + [c] && t.outs[|s.asked|] == []
            && t.phases[|s.asked|] ==
               if ReadOut(s.log, c) == [] then NotFound(|s.log|) else Replaying(Closed(ReadOut(s.log, c)), |s.log|)
  {
    hide ReadOut;
  }

  /** From every reachable state: a client that asks for a call that is gone is sent what can be read of its writes, closed by a
      failure if need be; or is told that there is nothing. */
  lemma ReplayedOnceGone(steps: seq<Step>, c: nat)
    requires Row(Run(steps), c) && Gone(Run(steps).stages[c])
    ensures var s := Run(steps);
            var u, whole := |s.asked|, Closed(ReadOut(s.log, c));
            var asked := steps + [Ask(c)] + [ReadLog(u)];
            if ReadOut(s.log, c) == [] then Sub(Run(asked), u) && Run(asked).phases[u] == NotFound(|s.log|)
            else
              var t := Run(asked + Replays(u, |whole|) + [Replay(u)]);
              Sub(t, u) && t.asked[u] == c && t.outs[u] == whole && t.phases[u] == Finished(Replayed(|s.log|))
  {
    hide ReadOut, Apply;
    var s := Run(steps);
    var u, whole := |s.asked|, Closed(ReadOut(s.log, c));
    EveryRunKeeps(steps);
    RunSnoc(steps, Ask(c));
    RunSnoc(steps + [Ask(c)], ReadLog(u));
    ReadsLog(s, c);
    if ReadOut(s.log, c) != [] {
      var asked := steps + [Ask(c)] + [ReadLog(u)];
      hide Run;
      ReplaysAll(asked, u, whole, |s.log|, |whole|);
      RunSnoc(asked + Replays(u, |whole|), Replay(u));
      LastReplay(Run(asked + Replays(u, |whole|)), u, whole, |s.log|);
    }
  }

  lemma LastReplay(s: State, u: nat, whole: seq<Frame>, at: nat)
    requires Sub(s, u) && s.phases[u] == Replaying(whole[|whole|..], at) && s.outs[u] == whole[..|whole|]
    ensures var t := Apply(s, Replay(u));
            Sub(t, u) && t.asked == s.asked && t.outs[u] == whole && t.phases[u] == Finished(Replayed(at))
  {
    assert whole[|whole|..] == [] && whole[..|whole|] == whole;
  }
}
