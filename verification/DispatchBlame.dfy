/** Who can put a frame into a call's channel, and so what can fail a call. */
module DispatchBlame {
  import opened Wrappers
  import opened CallQueue
  import opened Frames
  import opened Dispatch
  import opened DispatchInvariant
  import opened DispatchRuns
  import opened DispatchTheorems

  // ---- How a driver gets from stage to stage ----

  /** The driver's dial is over and failed. */
  predicate Broken(g: Stage) {
    ((g.Forgetting? || g.Reporting?) && !g.ok) || Retiring(g)
  }

  /** The driver has evicted its Job's record and is retiring the calls for its tool. */
  predicate Retiring(g: Stage) {
    g.Draining? || g.Scanning? || g.Seizing? || g.Erasing? || g.Failing?
  }

  /** The driver may come to stage `g` by this step. */
  predicate Reaches(s: State, step: Step, d: nat, g: Stage) {
    var was := At(s, d);
    || g == was
    || !Broken(g)
    || (g.Forgetting? && step == Hangup(d) && was == Dialling(g.call))
    || (g.Reporting? && was.Forgetting? && !was.ok)
    || (g.Draining? && step.Evict? && step.d == d && was == Reporting(false) && Evictable(s, d, step.key))
    || (g.Scanning? && was.Draining?)
    || (g.Seizing? && was.Scanning? && g.ids == set c | c in s.shadow && s.shadow[c] == s.drivers[d].tool)
    || (g.Erasing? && was == Seizing(g.ids) && g.guards <= g.ids)
    || (g.Failing? && was.Erasing? && g.guards == was.guards)
    || (g.Failing? && was.Failing? && g.guards <= was.guards)
  }

  predicate OfBegin(step: Step) {
    OfCall(step) || step.Begin? || step.Enqueue? || step.Withdraw?
  }

  predicate Early(step: Step) {
    step.Begin? || step.Resolve? || step.Create? || step.Record? || step.Open? || step.Shadow? || step.Enqueue?
  }

  lemma EarlyDrives(s: State, step: Step)
    requires Early(step)
    ensures Apply(s, step).drivers == s.drivers && Apply(s, step).stages == s.stages && s.asks <= Apply(s, step).asks
  {
    hide Without, Names, Bucket, Pushed, Position, TryFail, Attachable;
  }

  predicate Back(step: Step) {
    step.Check? || step.Withdraw? || step.Unshadow?
  }

  lemma BackDrives(s: State, step: Step)
    requires Back(step)
    ensures Apply(s, step).drivers == s.drivers && Apply(s, step).stages == s.stages && Apply(s, step).asks == s.asks
  {
    hide Without, Names, Bucket;
  }

  lemma LateDrives(s: State, step: Step)
    requires OfBegin(step) && !Early(step) && !Back(step) && !step.Spawn?
    ensures Apply(s, step).drivers == s.drivers && Apply(s, step).stages == s.stages && Apply(s, step).asks == s.asks
  {
    hide TryFail;
  }

  lemma CallDrives(s: State, step: Step)
    requires OfBegin(step) && !step.Spawn?
    ensures Apply(s, step).drivers == s.drivers && Apply(s, step).stages == s.stages && s.asks <= Apply(s, step).asks
  {
    hide Apply;
    if Early(step) {
      EarlyDrives(s, step);
    } else if Back(step) {
      BackDrives(s, step);
    } else {
      LateDrives(s, step);
    }
  }

  lemma CallReaches(s: State, step: Step, d: nat)
    requires Aligned(s) && OfBegin(step)
    ensures Reaches(s, step, d, At(Apply(s, step), d))
    ensures s.asks <= Apply(s, step).asks && s.drivers <= Apply(s, step).drivers
  {
    if !step.Spawn? {
      hide Apply;
      CallDrives(s, step);
    }
  }

  predicate OfClaim(step: Step) {
    step.Claim? || step.FindNone?
  }

  lemma ClaimReaches(s: State, step: Step, d: nat)
    requires Aligned(s) && OfClaim(step)
    ensures At(Apply(s, step), d) == At(s, d) || !Broken(At(Apply(s, step), d))
    ensures Apply(s, step).asks == s.asks && Apply(s, step).drivers == s.drivers
  {
    hide Without, Names, Bucket, Position, TryFail, Sent, Removed;
  }

  lemma TakeReaches(s: State, step: Step, d: nat)
    requires Aligned(s) && (step.Take? || step.Forward?)
    ensures At(Apply(s, step), d) == At(s, d) || !Broken(At(Apply(s, step), d))
    ensures Apply(s, step).asks == s.asks && Apply(s, step).drivers == s.drivers
  {
    hide Without, Names, Bucket, Position, TryFail, Sent, Removed;
  }

  predicate OfReport(step: Step) {
    step.Hangup? || step.Forget? || step.Bump? || step.KeepRecord?
  }

  lemma ReportReaches(s: State, step: Step, d: nat)
    requires Aligned(s) && OfReport(step)
    ensures Reaches(s, step, d, At(Apply(s, step), d))
    ensures Apply(s, step).asks == s.asks && Apply(s, step).drivers == s.drivers
  {
  }

  lemma DrainReaches(s: State, step: Step, d: nat)
    requires Aligned(s) && (step.Evict? || step.Drain? || step.Scan?)
    ensures Reaches(s, step, d, At(Apply(s, step), d))
    ensures Apply(s, step).asks == s.asks && Apply(s, step).drivers == s.drivers
  {
    hide Drained, DrainedCalls, TryFail;
  }

  lemma SeizeReaches(s: State, step: Step, d: nat)
    requires Aligned(s) && (step.Seize? || step.Erase? || step.Fail?)
    ensures Reaches(s, step, d, At(Apply(s, step), d))
    ensures Apply(s, step).asks == s.asks && Apply(s, step).drivers == s.drivers
  {
    hide Drained, DrainedCalls, TryFail;
  }

  lemma StepReaches(s: State, step: Step, d: nat)
    requires Aligned(s)
    ensures Reaches(s, step, d, At(Apply(s, step), d))
    ensures s.asks <= Apply(s, step).asks && s.drivers <= Apply(s, step).drivers
  {
    hide Apply;
    if OfBegin(step) {
      CallReaches(s, step, d);
    } else if OfClaim(step) {
      ClaimReaches(s, step, d);
    } else if step.Take? || step.Forward? {
      TakeReaches(s, step, d);
    } else if OfReport(step) {
      ReportReaches(s, step, d);
    } else if step.Evict? || step.Drain? || step.Scan? {
      DrainReaches(s, step, d);
    } else {
      SeizeReaches(s, step, d);
    }
  }

  // ---- A failed driver hung up, a retiring one evicted its record ----

  predicate HungUp(steps: seq<Step>, d: nat, h: nat) {
    h < |steps| && steps[h] == Hangup(d) && At(Run(EMPTY, steps[..h]), d).Dialling?
  }

  predicate EvictedAt(steps: seq<Step>, d: nat, m: nat) {
    && m < |steps| && steps[m].Evict? && steps[m].d == d
    && var s, k := Run(EMPTY, steps[..m]), steps[m].key;
       && At(s, d) == Reporting(false) && k in s.active
       && k.tool == s.drivers[d].tool && s.active[k].name == s.drivers[d].name
  }

  lemma {:induction false} BrokenHungUp(steps: seq<Step>, d: nat) returns (h: nat)
    requires Broken(At(Run(EMPTY, steps), d))
    ensures HungUp(steps, d, h)
    decreases |steps|
  {
    hide Apply;
    var init, last := steps[..|steps| - 1], steps[|steps| - 1];
    StillAligned(init);
    StepReaches(Run(EMPTY, init), last, d);
    if Broken(At(Run(EMPTY, init), d)) {
      h := BrokenHungUp(init, d);
      assert init[..h] == steps[..h];
    } else {
      h := |steps| - 1;
    }
  }

  lemma {:induction false} RetiringEvicted(steps: seq<Step>, d: nat) returns (m: nat)
    requires Retiring(At(Run(EMPTY, steps), d))
    ensures EvictedAt(steps, d, m)
    decreases |steps|
  {
    hide Apply;
    var init, last := steps[..|steps| - 1], steps[|steps| - 1];
    StillAligned(init);
    StepReaches(Run(EMPTY, init), last, d);
    if Retiring(At(Run(EMPTY, init), d)) {
      m := RetiringEvicted(init, d);
      assert init[..m] == steps[..m];
    } else {
      m := |steps| - 1;
    }
  }

  // ---- A retiring driver takes only its own tool's calls ----

  ghost predicate OfTool(asks: seq<Ask>, tool: string, ids: set<nat>) {
    forall c | c in ids :: c < |asks| && asks[c].key.tool == tool
  }

  ghost predicate Takes(s: State, d: nat) {
    var g := At(s, d);
    && (g.Seizing? || g.Erasing? ==> OfTool(s.asks, s.drivers[d].tool, g.ids))
    && (g.Erasing? || g.Failing? ==> OfTool(s.asks, s.drivers[d].tool, g.guards))
  }

  lemma TakesNext(s: State, step: Step, d: nat)
    requires Takes(s, d) && Aligned(s) && Shadowed(s.asks, s.holders, s.shadow)
    ensures Takes(Apply(s, step), d)
  {
    hide Apply;
    var t := Apply(s, step);
    StepReaches(s, step, d);
    if At(s, d) != Done {
      assert t.drivers[d] == s.drivers[d];
    }
  }

  lemma {:induction false} TakesOwn(steps: seq<Step>, d: nat)
    ensures Takes(Run(EMPTY, steps), d)
    decreases |steps|
  {
    hide Apply, Phased, Targeted, Routed, Working, Held, Watched, Evicted, Sending, Lined;
    if steps != [] {
      var init := steps[..|steps| - 1];
      TakesOwn(init, d);
      EveryRunSafe(init);
      TakesNext(Run(EMPTY, init), steps[|steps| - 1], d);
    }
  }

  // ---- Who sends ----

  predicate Sends(s: State, step: Step, c: nat, f: Frame) {
    || (step.Forward? && step.frame == f && At(s, step.d) == Dialling(c))
    || (f == FAILED_TERMINAL && step.Hangup? && At(s, step.d) == Dialling(c))
    || (f == FAILED_TERMINAL && step == DropBack(c) && In(s, c, DroppingBack))
    || (f == FAILED_TERMINAL && step.Fail? && step.c == c && At(s, step.d).Failing? && c in At(s, step.d).guards)
  }

  predicate MaySend(step: Step) {
    step.Forward? || step.Hangup? || step.DropBack? || step.Fail?
  }

  predicate SameSent(s: State, t: State, c: nat)
    requires c < |s.chans|
  {
    c < |t.chans| && t.chans[c].sent == s.chans[c].sent
  }

  lemma EarlySilent(s: State, step: Step, c: nat)
    requires Early(step) && c < |s.chans|
    ensures SameSent(s, Apply(s, step), c)
  {
    hide Without, Names, Bucket, Pushed, Position, TryFail, Attachable;
  }

  lemma LateSilent(s: State, step: Step, c: nat)
    requires OfBegin(step) && !Early(step) && !step.DropBack? && c < |s.chans|
    ensures SameSent(s, Apply(s, step), c)
  {
    hide Without, Names, Bucket, Pushed, Position, TryFail;
  }

  lemma DriverSilent(s: State, step: Step, c: nat)
    requires !OfBegin(step) && !MaySend(step) && c < |s.chans|
    ensures SameSent(s, Apply(s, step), c)
  {
  }

  lemma DriverSends(s: State, step: Step, c: nat)
    requires (step.Forward? || step.Hangup?) && c < |s.chans|
    ensures var t := Apply(s, step);
            SameSent(s, t, c) || exists f :: Sends(s, step, c, f) && c < |t.chans| && t.chans[c].sent == s.chans[c].sent + [f]
  {
    hide Position, HasRoom;
    var t := Apply(s, step);
    if !SameSent(s, t, c) {
      var f := if step.Forward? then step.frame else FAILED_TERMINAL;
      assert Sends(s, step, c, f) && t.chans[c].sent == s.chans[c].sent + [f];
    }
  }

  lemma GuardSends(s: State, step: Step, c: nat)
    requires (step.DropBack? || step.Fail?) && c < |s.chans|
    ensures var t := Apply(s, step);
            SameSent(s, t, c) || exists f :: Sends(s, step, c, f) && c < |t.chans| && t.chans[c].sent == s.chans[c].sent + [f]
  {
    hide Position, HasRoom;
    var t := Apply(s, step);
    if !SameSent(s, t, c) {
      assert Sends(s, step, c, FAILED_TERMINAL) && t.chans[c].sent == s.chans[c].sent + [FAILED_TERMINAL];
    }
  }

  /** A frame that reaches a call's channel was passed on by the driver that dials for the call; or it is a synthetic failure,
      sent because that driver hung up, or because the call was withdrawn, or by a driver for the same tool that earlier hung
      up on a call of its own and then found and evicted its Job's record. Nothing else can fail a call. */
  lemma WhoFails(steps: seq<Step>, step: Step, c: nat) returns (f: Frame, hung: nat, evicted: nat)
    requires c < |Run(EMPTY, steps).chans|
    ensures var s := Run(EMPTY, steps);
            var t := Apply(s, step);
            || SameSent(s, t, c)
            || (&& c < |t.chans| && t.chans[c].sent == s.chans[c].sent + [f] && Sends(s, step, c, f)
                && (step.Fail? ==>
                      && HungUp(steps, step.d, hung) && EvictedAt(steps, step.d, evicted) && hung < evicted
                      && c < |s.asks| && step.d < |s.drivers| && s.drivers[step.d].tool == s.asks[c].key.tool))
  {
    hide Apply, SameSent, Run;
    var s := Run(EMPTY, steps);
    var t := Apply(s, step);
    f, hung, evicted := FAILED_TERMINAL, 0, 0;
    if MaySend(step) {
      if step.Forward? || step.Hangup? {
        DriverSends(s, step, c);
      } else {
        GuardSends(s, step, c);
      }
      if !SameSent(s, t, c) {
        f :| Sends(s, step, c, f) && c < |t.chans| && t.chans[c].sent == s.chans[c].sent + [f];
        if step.Fail? {
          evicted := RetiringEvicted(steps, step.d);
          hung := BrokenHungUp(steps[..evicted], step.d);
          assert steps[..evicted][..hung] == steps[..hung];
          TakesOwn(steps, step.d);
        }
      }
    } else if Early(step) {
      EarlySilent(s, step, c);
    } else if OfBegin(step) {
      LateSilent(s, step, c);
    } else {
      DriverSilent(s, step, c);
    }
  }

  // ---- Across grants ----

  function RetiringSteps(d: nat): seq<Step> {
    [Drain(d), Scan(d), Seize(d), Erase(d)]
  }

  lemma Scans(s: State, d: nat, c: nat)
    requires At(s, d).Draining? && Row(s, c) && c in s.parked && c in s.shadow && s.shadow[c] == s.drivers[d].tool
    ensures var t := Apply(Apply(s, Drain(d)), Scan(d));
            && At(t, d).Seizing? && c in At(t, d).ids && Row(t, c) && c in t.parked
            && t.chans == s.chans && t.asks == s.asks && t.active == s.active
  {
    hide Drained, DrainedCalls;
  }

  lemma SeizesAndErases(s: State, d: nat, c: nat)
    requires At(s, d).Seizing? && c in At(s, d).ids && Row(s, c) && c in s.parked
    ensures var t := Apply(Apply(s, Seize(d)), Erase(d));
            && At(t, d).Failing? && c in At(t, d).guards && Row(t, c) && c !in t.parked && c !in t.shadow
            && t.chans == s.chans && t.asks == s.asks && t.active == s.active
  {
  }

  lemma Retires(s: State, d: nat, c: nat)
    requires Aligned(s) && At(s, d).Draining? && Row(s, c) && c in s.parked && c in s.shadow && s.shadow[c] == s.drivers[d].tool
    ensures var t := Apply(Apply(Apply(Apply(s, Drain(d)), Scan(d)), Seize(d)), Erase(d));
            At(t, d).Failing? && c in At(t, d).guards && Row(t, c) && t.chans == s.chans && t.asks == s.asks && t.active == s.active
            && c !in t.parked && c !in t.shadow
  {
    hide Apply;
    Scans(s, d, c);
    SeizesAndErases(Apply(Apply(s, Drain(d)), Scan(d)), d, c);
  }

  lemma FailsOne(s: State, d: nat, c: nat)
    requires At(s, d).Failing? && c in At(s, d).guards && Row(s, c)
    ensures var t := Apply(s, Fail(d, c));
            && Row(t, c) && t.chans[c] == TryFail(s.chans[c]) && t.asks == s.asks && t.active == s.active
            && t.parked == s.parked && t.shadow == s.shadow
  {
  }

  /** A retirement fails every parked call for its tool, whatever its grant and its Job. */
  lemma RetiresEveryGrant(s: State, d: nat, c: nat)
    requires Aligned(s) && At(s, d).Draining? && Row(s, c) && c in s.parked && c in s.shadow && s.shadow[c] == s.drivers[d].tool
    ensures var t := Run(s, RetiringSteps(d) + [Fail(d, c)]);
            && Row(t, c) && t.asks == s.asks && t.active == s.active && c !in t.parked && c !in t.shadow
            && (s.chans[c].open && |s.chans[c].sent| < s.chans[c].taken + 64 ==> t.chans[c].sent == s.chans[c].sent + [Complete(2, -1)])
  {
    hide Apply, Run;
    Retires(s, d, c);
    RunFour(s, Drain(d), Scan(d), Seize(d), Erase(d));
    var t := Run(s, RetiringSteps(d));
    FailsOne(t, d, c);
    RunOne(t, Fail(d, c));
    RunJoin(s, RetiringSteps(d), [Fail(d, c)]);
  }

  /** A driver whose dial failed evicts a record only of its own tool and pod name, and that one alone; it leaves the records as they
      are exactly if there is none such. */
  lemma EvictsOwn(s: State, d: nat, k: Key)
    requires At(s, d) == Reporting(false)
    ensures var own := k in s.active && k.tool == s.drivers[d].tool && s.active[k].name == s.drivers[d].name;
            && Apply(s, Evict(d, k)).active == (if own then s.active - {k} else s.active)
            && At(Apply(s, Evict(d, k)), d) == (if own then Draining else Reporting(false))
            && (own ==> At(Apply(s, KeepRecord(d)), d) == Reporting(false))
  {
    if k in s.active && Evictable(s, d, k) {
      assert Apply(s, KeepRecord(d)) == s;
    }
  }

  /** Draining empties the queue of the tool, of every grant, and of no other. */
  lemma DrainsTool(s: State, d: nat, k: Key)
    requires At(s, d).Draining?
    ensures var t := Apply(s, Drain(d));
            if k.tool == s.drivers[d].tool then k !in t.pending
            else (k in t.pending <==> k in s.pending) && (k in s.pending ==> t.pending[k] == s.pending[k])
  {
  }

  // ---- An input where it crosses grants ----

  const ALPHA: Key := Key("tool", Some("alpha"))
  const BETA: Key := Key("tool", Some("beta"))

  /** Admits a call with a Job of its own, and parks and shadows its guard. */
  function AdmitSteps(c: nat, key: Key): seq<Step> {
    [Begin(Ask(key, "", true)), Resolve(c, 0), Create(c, true, "pod"), Record(c, 0)] + [Open(c), Shadow(c)]
  }

  function Admitted(s: State, key: Key): State {
    var c := |s.asks|;
    s.(parked := s.parked + {c}, shadow := s.shadow[c := key.tool],
       active := s.active[key := ActiveJob("pod", c, KEEPALIVE_IDLE, 0)],
       asks := s.asks + [Ask(key, "", true)], phases := s.phases + [Enqueuing], targets := s.targets + [Job(c, "pod")],
       places := s.places + [Outside], tickets := s.tickets + [0], holders := s.holders + [Parked], chans := s.chans + [NO_FRAMES],
       jobs := s.jobs[c := key])
  }

  lemma CreatesJob(s: State, key: Key)
    requires Aligned(s) && key !in s.active
    ensures var c := |s.asks|;
            var t := Apply(Apply(Apply(s, Begin(Ask(key, "", true))), Resolve(c, 0)), Create(c, true, "pod"));
            t == DoBegin(s, Ask(key, "", true)).(phases := s.phases + [Recording],
                                                   targets := s.targets + [Job(c, "pod")], jobs := s.jobs[c := key])
  {
  }

  lemma ParksGuard(s: State, key: Key)
    requires Aligned(s)
    ensures var c := |s.asks|;
            var t := DoBegin(s, Ask(key, "", true)).(phases := s.phases + [Recording],
                                                   targets := s.targets + [Job(c, "pod")], jobs := s.jobs[c := key]);
            Apply(Apply(Apply(t, Record(c, 0)), Open(c)), Shadow(c)) == Admitted(s, key)
  {
  }

  lemma Admits(s: State, key: Key)
    requires Aligned(s) && key !in s.active
    ensures Run(s, AdmitSteps(|s.asks|, key)) == Admitted(s, key) && Aligned(Admitted(s, key))
  {
    hide Apply, Run;
    var c := |s.asks|;
    CreatesJob(s, key);
    ParksGuard(s, key);
    var a := [Begin(Ask(key, "", true)), Resolve(c, 0), Create(c, true, "pod"), Record(c, 0)];
    RunFour(s, a[0], a[1], a[2], a[3]);
    RunTwo(Run(s, a), Open(c), Shadow(c));
    RunJoin(s, a, [Open(c), Shadow(c)]);
  }

  function QueueSteps(): seq<Step> {
    [Enqueue(0), Check(0)] + [Spawn(0)]
  }

  /** The only call's driver claims it, hangs up, and evicts the record of its Job. */
  function HangupSteps(): seq<Step> {
    [Claim(0, ALPHA), Take(0), Hangup(0), Forget(0)] + [Evict(0, ALPHA)]
  }

  const ALONE: State := Admitted(EMPTY, ALPHA)

  const QUEUED: State := ALONE.(
    pending := map[ALPHA := [Pending(0, ALPHA, "", 0)]], phases := [Returned], places := [Queued], clock := 1,
    drivers := [Driver("tool", 0, "pod")], stages := [Claiming])

  lemma Queues()
    ensures Run(ALONE, QueueSteps()) == QUEUED && Aligned(QUEUED)
  {
    hide Run;
    RunTwo(ALONE, Enqueue(0), Check(0));
    RunOne(Run(ALONE, [Enqueue(0), Check(0)]), Spawn(0));
    RunJoin(ALONE, [Enqueue(0), Check(0)], [Spawn(0)]);
    assert Bucket(map[], ALPHA) + [Pending(0, ALPHA, "", 0)] == [Pending(0, ALPHA, "", 0)];
  }

  const BOTH: State := Admitted(QUEUED, BETA)

  lemma Claims()
    ensures var t := Apply(Apply(BOTH, Claim(0, ALPHA)), Take(0));
            && Aligned(t) && Row(t, 0) && Row(t, 1) && At(t, 0) == Dialling(0) && t.parked == {1} && t.shadow == BOTH.shadow
            && t.drivers == BOTH.drivers && t.active == BOTH.active && t.asks == BOTH.asks && t.chans[1] == NO_FRAMES
  {
    assert Position([Pending(0, ALPHA, "", 0)], 0) == 0;
  }

  lemma HangsUp(s: State)
    requires Aligned(s) && Row(s, 0) && Row(s, 1) && At(s, 0) == Dialling(0) && s.parked == {1} && s.shadow == BOTH.shadow
    requires s.drivers == BOTH.drivers && s.active == BOTH.active && s.asks == BOTH.asks && s.chans[1] == NO_FRAMES
    ensures var t := Apply(Apply(Apply(s, Hangup(0)), Forget(0)), Evict(0, ALPHA));
            && Aligned(t) && Row(t, 1) && At(t, 0).Draining? && t.drivers == BOTH.drivers
            && t.parked == {1} && t.shadow == BOTH.shadow - {0} && t.asks == BOTH.asks && t.chans[1] == NO_FRAMES
            && BETA in t.active && t.active[BETA].id == 1
  {
    hide Apply;
    Forgets(s);
    Evicts(Apply(Apply(s, Hangup(0)), Forget(0)));
  }

  lemma Forgets(s: State)
    requires Aligned(s) && Row(s, 0) && Row(s, 1) && At(s, 0) == Dialling(0)
    ensures var t := Apply(Apply(s, Hangup(0)), Forget(0));
            && Aligned(t) && Row(t, 1) && At(t, 0) == Reporting(false) && t.drivers == s.drivers
            && t.parked == s.parked && t.shadow == s.shadow - {0} && t.active == s.active && t.asks == s.asks && t.chans[1] == s.chans[1]
  {
    hide TryFail;
  }

  lemma Evicts(s: State)
    requires Aligned(s) && Row(s, 1) && At(s, 0) == Reporting(false) && s.drivers == BOTH.drivers && s.active == BOTH.active
    ensures var t := Apply(s, Evict(0, ALPHA));
            && Aligned(t) && Row(t, 1) && At(t, 0).Draining? && t.drivers == s.drivers
            && t.parked == s.parked && t.shadow == s.shadow && t.asks == s.asks && t.chans == s.chans
            && BETA in t.active && t.active[BETA].id == 1
  {
  }

  /** Two calls of one tool with different grants, each with its own Job: when the first one's driver hangs up, the second is
      failed too, though its own Job and record are untouched. */
  lemma CrossesGrants() returns (steps: seq<Step>)
    ensures var t := Run(EMPTY, steps);
            && Row(t, 1) && t.asks[0].key == ALPHA && t.asks[1].key == BETA && t.chans[1].sent == [FAILED_TERMINAL]
            && BETA in t.active && t.active[BETA].id == 1
  {
    hide Apply, Run;
    var before := AdmitSteps(0, ALPHA) + QueueSteps() + AdmitSteps(1, BETA) + HangupSteps();
    steps := before + (RetiringSteps(0) + [Fail(0, 1)]);
    Admits(EMPTY, ALPHA);
    Queues();
    RunJoin(EMPTY, AdmitSteps(0, ALPHA), QueueSteps());
    Admits(QUEUED, BETA);
    RunJoin(EMPTY, AdmitSteps(0, ALPHA) + QueueSteps(), AdmitSteps(1, BETA));
    RunJoin(EMPTY, AdmitSteps(0, ALPHA) + QueueSteps() + AdmitSteps(1, BETA), HangupSteps());
    Claims();
    HangsUp(Apply(Apply(BOTH, Claim(0, ALPHA)), Take(0)));
    RunFour(BOTH, Claim(0, ALPHA), Take(0), Hangup(0), Forget(0));
    RunOne(Run(BOTH, [Claim(0, ALPHA), Take(0), Hangup(0), Forget(0)]), Evict(0, ALPHA));
    RunJoin(BOTH, [Claim(0, ALPHA), Take(0), Hangup(0), Forget(0)], [Evict(0, ALPHA)]);
    var s := Run(EMPTY, before);
    RetiresEveryGrant(s, 0, 1);
    RunJoin(EMPTY, before, RetiringSteps(0) + [Fail(0, 1)]);
  }
}
