/** One dial, run straight through, is a run of the step machine: the frames it passes on to a receiver that
    keeps up are the ones its driver's steps put in the channel. */
module DispatchDial {
  import opened Wrappers
  import opened Frames
  import opened Dispatch
  import opened DispatchRuns
  import opened DispatchState

  /** The driver dials for the call, whose receiver has taken everything so far. */
  predicate Ready(s: State, d: nat, c: nat) {
    && At(s, d) == Dialling(c) && In(s, c, Returned)
    && s.chans[c].open && s.chans[c].taken == |s.chans[c].sent|
  }

  function Passing(d: nat, c: nat, fs: seq<Frame>): seq<Step> {
    if fs == [] then [] else Passing(d, c, fs[..|fs| - 1]) + [Forward(d, fs[|fs| - 1]), Receive(c)]
  }

  /** Only the call's channel and who owes its terminal have changed. */
  predicate Undisturbed(s: State, t: State) {
    && t.places == s.places && t.pending == s.pending && t.phases == s.phases
    && t.active == s.active && t.drivers == s.drivers && t.parked == s.parked
  }

  lemma ForwardIs(s: State, d: nat, c: nat, f: Frame)
    requires Ready(s, d, c)
    ensures CanForward(s, d) && Apply(s, Forward(d, f)) == DoForward(s, d, f)
  {
    hide DoForward;
  }

  lemma ReceiveIs(s: State, c: nat)
    requires In(s, c, Returned)
    ensures Apply(s, Receive(c)) == DoReceive(s, c)
  {
    hide DoReceive;
  }

  lemma PassOne(s: State, d: nat, c: nat, f: Frame)
    requires Ready(s, d, c) && !IsTerminal(f)
    ensures var t := Apply(Apply(s, Forward(d, f)), Receive(c));
            Ready(t, d, c) && Undisturbed(s, t) && t.chans[c].sent == s.chans[c].sent + [f]
  {
    hide Apply;
    ForwardIs(s, d, c, f);
    ReceiveIs(DoForward(s, d, f), c);
  }

  lemma {:induction false} PassAll(s: State, d: nat, c: nat, fs: seq<Frame>)
    requires Ready(s, d, c) && NoTerminal(fs)
    ensures var t := Run(s, Passing(d, c, fs));
            Ready(t, d, c) && Undisturbed(s, t) && t.chans[c].sent == s.chans[c].sent + fs
    decreases |fs|
  {
    hide Apply;
    if fs != [] {
      var init, f := fs[..|fs| - 1], fs[|fs| - 1];
      PassAll(s, d, c, init);
      var u := Run(s, Passing(d, c, init));
      PassOne(u, d, c, f);
      RunTwo(u, Forward(d, f), Receive(c));
      RunJoin(s, Passing(d, c, init), [Forward(d, f), Receive(c)]);
      assert s.chans[c].sent + init + [f] == s.chans[c].sent + fs;
    }
  }

  lemma EndOne(s: State, d: nat, c: nat, f: Frame)
    requires Ready(s, d, c) && IsTerminal(f)
    ensures var t := Apply(s, Forward(d, f));
            Row(t, c) && Undisturbed(s, t) && At(t, d) == Forgetting(c, true) && t.chans[c].sent == s.chans[c].sent + [f]
  {
    hide Apply;
    ForwardIs(s, d, c, f);
  }

  lemma HangOne(s: State, d: nat, c: nat)
    requires Ready(s, d, c)
    ensures var t := Apply(s, Hangup(d));
            Row(t, c) && Undisturbed(s, t) && At(t, d) == Forgetting(c, false) && t.chans[c].sent == s.chans[c].sent + [FAILED_TERMINAL]
  {
  }

  /** The steps of one dial: the frames passed on, and the terminal or the hang-up that ends it. */
  function DialSteps(d: nat, c: nat, reached: bool, stream: seq<Option<Frame>>): seq<Step> {
    var fs := PassedOn(stream);
    if !reached then [Hangup(d)]
    else if Completes(stream) then Passing(d, c, fs[..|fs| - 1]) + [Forward(d, fs[|fs| - 1])]
    else Passing(d, c, fs) + [Hangup(d)]
  }

  lemma PassedOnFits(stream: seq<Option<Frame>>)
    ensures var fs := PassedOn(stream);
            if Completes(stream) then NoTerminal(fs[..|fs| - 1]) else NoTerminal(fs)
  {
    OnlyLastTerminal(stream);
  }

  lemma DialRefines(s: State, d: nat, c: nat, reached: bool, stream: seq<Option<Frame>>)
    requires Ready(s, d, c)
    ensures var t := Run(s, DialSteps(d, c, reached, stream));
            && Row(t, c) && Undisturbed(s, t) && At(t, d) == Forgetting(c, reached && Completes(stream))
            && t.chans[c].sent == s.chans[c].sent + DialSends(reached, stream)
  {
    hide Apply, PassedOn;
    var fs, sent := PassedOn(stream), s.chans[c].sent;
    if !reached {
      HangOne(s, d, c);
      RunOne(s, Hangup(d));
    } else {
      PassedOnFits(stream);
      var n := if Completes(stream) then |fs| - 1 else |fs|;
      PassAll(s, d, c, fs[..n]);
      var u := Run(s, Passing(d, c, fs[..n]));
      if Completes(stream) {
        EndOne(u, d, c, fs[n]);
        RunOne(u, Forward(d, fs[n]));
        RunJoin(s, Passing(d, c, fs[..n]), [Forward(d, fs[n])]);
        assert sent + fs[..n] + [fs[n]] == sent + (fs + []);
      } else {
        assert fs[..n] == fs;
        HangOne(u, d, c);
        RunOne(u, Hangup(d));
        RunJoin(s, Passing(d, c, fs), [Hangup(d)]);
        assert sent + fs + [FAILED_TERMINAL] == sent + (fs + [FAILED_TERMINAL]);
      }
    }
  }
}
