/** The dispatch protocol never gets stuck: whatever has happened, the calls begun so far can all be
    brought to their end, and there everything is accounted for. */
module DispatchSettles {
  import opened CallQueue
  import opened Dispatch
  import opened DispatchInvariant
  import opened DispatchCover
  import opened DispatchRuns
  import opened DispatchTheorems

  lemma RunOne(s: State, step: Step)
    ensures Run(s, [step]) == Apply(s, step)
  {
    assert [step][..0] == [];
  }

  // ---- Calls ----

  function CallRank(p: Phase): nat {
    match p
    case Resolving => 12
    case Creating => 11
    case Recording => 10
    case Opening => 9
    case Shadowing => 8
    case Enqueuing => 7
    case Checking => 6
    case Withdrawing => 5
    case Unshadowing => 4
    case TakingBack => 3
    case DroppingBack => 2
    case Spawning => 1
    case _ => 0
  }

  function CallStep(p: Phase, c: nat): Step {
    match p
    case Resolving => Resolve(c, 0)
    case Creating => Create(c, true, "")
    case Recording => Record(c, 0)
    case Opening => Open(c)
    case Shadowing => Shadow(c)
    case Enqueuing => Enqueue(c)
    case Checking => Check(c)
    case Withdrawing => Withdraw(c)
    case Unshadowing => Unshadow(c)
    case TakingBack => TakeBack(c)
    case DroppingBack => DropBack(c)
    case _ => Spawn(c)
  }

  /** Other calls stay where they were. */
  predicate OnlyCall(s: State, t: State, c: nat) {
    |t.phases| == |s.phases| && forall x | 0 <= x < |s.phases| && x != c :: t.phases[x] == s.phases[x]
  }

  predicate Moved(s: State, t: State, c: nat) {
    c < |s.phases| && OnlyCall(s, t, c) && CallRank(t.phases[c]) < CallRank(s.phases[c])
  }

  lemma EarlyMoves(s: State, c: nat)
    requires Row(s, c) && CallRank(s.phases[c]) >= 7
    ensures Moved(s, Apply(s, CallStep(s.phases[c], c)), c)
  {
    match s.phases[c]
    case Resolving => assert Moved(s, DoResolve(s, c, 0), c);
    case Creating => assert Moved(s, DoCreate(s, c, true, ""), c);
    case Recording => assert Moved(s, DoRecord(s, c, 0), c);
    case Opening => assert Moved(s, DoOpen(s, c), c);
    case Shadowing => assert Moved(s, DoShadow(s, c), c);
    case Enqueuing => assert Moved(s, DoEnqueue(s, c), c);
  }

  lemma QueueMoves(s: State, c: nat)
    requires Row(s, c) && 5 <= CallRank(s.phases[c]) < 7
    ensures Moved(s, Apply(s, CallStep(s.phases[c], c)), c)
  {
    match s.phases[c]
    case Checking => assert Moved(s, DoCheck(s, c), c);
    case Withdrawing => assert Moved(s, DoWithdraw(s, c), c);
  }

  lemma LateMoves(s: State, c: nat)
    requires Row(s, c) && 0 < CallRank(s.phases[c]) < 5
    ensures Moved(s, Apply(s, CallStep(s.phases[c], c)), c)
  {
    match s.phases[c]
    case Unshadowing => assert Moved(s, DoUnshadow(s, c), c);
    case TakingBack => assert Moved(s, DoTakeBack(s, c), c);
    case DroppingBack => assert Moved(s, DoDropBack(s, c), c);
    case Spawning => assert Moved(s, DoSpawn(s, c), c);
  }

  lemma CallMoves(s: State, c: nat)
    requires Row(s, c) && !Over(s.phases[c])
    ensures Moved(s, Apply(s, CallStep(s.phases[c], c)), c)
  {
    if CallRank(s.phases[c]) >= 7 {
      EarlyMoves(s, c);
    } else if CallRank(s.phases[c]) >= 5 {
      QueueMoves(s, c);
    } else {
      LateMoves(s, c);
    }
  }

  lemma {:induction false} CallFinishes(s: State, c: nat) returns (steps: seq<Step>)
    requires Safe(s) && c < |s.phases|
    ensures Safe(Run(s, steps)) && OnlyCall(s, Run(s, steps), c) && Over(Run(s, steps).phases[c])
    decreases CallRank(s.phases[c])
  {
    hide Phased, Targeted, Routed, Working, Held, Shadowed, Watched, Evicted, Sending, Lined, Covered;
    steps := [];
    if !Over(s.phases[c]) {
      var step := CallStep(s.phases[c], c);
      CallMoves(s, c);
      StepSafe(s, step);
      var rest := CallFinishes(Apply(s, step), c);
      RunOne(s, step);
      RunJoin(s, [step], rest);
      steps := [step] + rest;
    }
  }

  lemma {:induction false} CallsFinish(s: State, n: nat) returns (steps: seq<Step>)
    requires Safe(s) && n <= |s.phases|
    ensures var t := Run(s, steps);
            Safe(t) && |t.phases| == |s.phases| && forall c | 0 <= c < n :: Over(t.phases[c])
    decreases n
  {
    hide Guarded, Lined, Covered;
    steps := [];
    if n > 0 {
      var most := CallsFinish(s, n - 1);
      var last := CallFinishes(Run(s, most), n - 1);
      RunJoin(s, most, last);
      steps := most + last;
    }
  }

  // ---- Drivers ----

  function DriverRank(g: Stage): nat {
    match g
    case Claiming => 10
    case Taking(_) => 9
    case Dialling(_) => 8
    case Forgetting(_, _) => 7
    case Reporting(_) => 6
    case Draining => 5
    case Scanning => 4
    case Seizing(_) => 3
    case Erasing(_, _) => 2
    case Failing(_) => 1
    case Done => 0
  }

  function Load(g: Stage): nat {
    if g.Failing? then |g.guards| else 0
  }

  predicate OnlyDriver(s: State, t: State, d: nat) {
    && t.phases == s.phases && |t.stages| == |s.stages| && |t.drivers| == |s.drivers|
    && forall e | 0 <= e < |s.stages| && e != d :: t.stages[e] == s.stages[e]
  }

  lemma ClaimLowers(s: State, d: nat, k: Key)
    requires CanClaim(s, d, k)
    ensures OnlyDriver(s, DoClaim(s, d, k), d) && Lower(At(DoClaim(s, d, k), d), At(s, d))
  {
  }

  lemma Claimable(s: State, d: nat) returns (k: Key)
    requires Aligned(s) && Listed(s.asks, s.targets, s.places, s.pending) && At(s, d).Claiming? && !NothingToClaim(s, d)
    ensures CanClaim(s, d, k)
  {
    k :| k in s.pending && k.tool == s.drivers[d].tool && Aimed(s.pending[k], s.drivers[d].job);
    assert EntryFits(s.asks, s.targets, s.places, k, s.pending[k][Position(s.pending[k], s.drivers[d].job)]);
  }

  lemma ClaimMoves(s: State, d: nat) returns (step: Step)
    requires Aligned(s) && Listed(s.asks, s.targets, s.places, s.pending) && At(s, d).Claiming?
    ensures OnlyDriver(s, Apply(s, step), d) && Lower(At(Apply(s, step), d), At(s, d))
  {
    hide Listed;
    if NothingToClaim(s, d) {
      step := FindNone(d);
    } else {
      var k := Claimable(s, d);
      step := Claim(d, k);
      ClaimLowers(s, d, k);
    }
  }

  lemma ReportMoves(s: State, d: nat) returns (step: Step)
    requires Aligned(s) && At(s, d).Reporting?
    ensures OnlyDriver(s, Apply(s, step), d) && Lower(At(Apply(s, step), d), At(s, d))
  {
    if At(s, d).ok {
      step := Bump(d, "", 0);
    } else if k :| Evictable(s, d, k) {
      step := Evict(d, k);
    } else {
      step := KeepRecord(d);
    }
  }

  lemma FailMoves(s: State, d: nat) returns (step: Step)
    requires Aligned(s) && Held(s.holders, s.parked, s.stages) && At(s, d).Failing?
    ensures OnlyDriver(s, Apply(s, step), d) && Lower(At(Apply(s, step), d), At(s, d))
  {
    if At(s, d).guards == {} {
      step := Fail(d, 0);
    } else {
      var c :| c in At(s, d).guards;
      assert Holding(s.holders, d, s.stages[d]);
      step := Fail(d, c);
    }
  }

  predicate Lower(g: Stage, h: Stage) {
    DriverRank(g) < DriverRank(h) || (DriverRank(g) == DriverRank(h) && Load(g) < Load(h))
  }

  lemma TakeLowers(s: State, d: nat)
    requires Aligned(s) && At(s, d).Taking? && Row(s, At(s, d).call)
    ensures OnlyDriver(s, DoTake(s, d), d) && Lower(At(DoTake(s, d), d), At(s, d))
  {
  }

  lemma HangupLowers(s: State, d: nat)
    requires Aligned(s) && At(s, d).Dialling? && Row(s, At(s, d).call)
    ensures OnlyDriver(s, DoHangup(s, d), d) && Lower(At(DoHangup(s, d), d), At(s, d))
  {
  }

  lemma ForgetLowers(s: State, d: nat)
    requires Aligned(s) && At(s, d).Forgetting?
    ensures OnlyDriver(s, DoForget(s, d), d) && Lower(At(DoForget(s, d), d), At(s, d))
  {
  }

  lemma DialMoves(s: State, d: nat) returns (step: Step)
    requires Aligned(s) && Working(s.targets, s.places, s.drivers, s.stages)
    requires At(s, d).Taking? || At(s, d).Dialling? || At(s, d).Forgetting?
    ensures OnlyDriver(s, Apply(s, step), d) && Lower(At(Apply(s, step), d), At(s, d))
  {
    hide OnlyDriver, Lower;
    if At(s, d).Taking? {
      step := Take(d);
      TakeLowers(s, d);
    } else if At(s, d).Dialling? {
      step := Hangup(d);
      HangupLowers(s, d);
    } else {
      step := Forget(d);
      ForgetLowers(s, d);
    }
  }

  lemma RetireMoves(s: State, d: nat) returns (step: Step)
    requires Aligned(s) && (At(s, d).Draining? || At(s, d).Scanning? || At(s, d).Seizing? || At(s, d).Erasing?)
    ensures OnlyDriver(s, Apply(s, step), d) && Lower(At(Apply(s, step), d), At(s, d))
  {
    step := if At(s, d).Draining? then Drain(d) else if At(s, d).Scanning? then Scan(d)
            else if At(s, d).Seizing? then Seize(d) else Erase(d);
  }

  lemma DriverMoves(s: State, d: nat) returns (step: Step)
    requires Safe(s) && d < |s.stages| && !s.stages[d].Done?
    ensures OnlyDriver(s, Apply(s, step), d) && Lower(At(Apply(s, step), d), s.stages[d])
  {
    hide Phased, Targeted, Routed, Working, Held, Shadowed, Watched, Evicted, Sending, Ticketed, Listed, Ordered, Claimed, Covered;
    match s.stages[d]
    case Claiming => step := ClaimMoves(s, d);
    case Taking(_) => step := DialMoves(s, d);
    case Dialling(_) => step := DialMoves(s, d);
    case Forgetting(_, _) => step := DialMoves(s, d);
    case Reporting(_) => step := ReportMoves(s, d);
    case Failing(_) => step := FailMoves(s, d);
    case _ => step := RetireMoves(s, d);
  }

  lemma {:induction false} DriverFinishes(s: State, d: nat) returns (steps: seq<Step>)
    requires Safe(s) && d < |s.stages|
    ensures Safe(Run(s, steps)) && OnlyDriver(s, Run(s, steps), d) && Run(s, steps).stages[d].Done?
    decreases DriverRank(s.stages[d]), Load(s.stages[d])
  {
    hide Phased, Targeted, Routed, Working, Held, Shadowed, Watched, Evicted, Sending, Lined, Covered;
    steps := [];
    if !s.stages[d].Done? {
      var step := DriverMoves(s, d);
      StepSafe(s, step);
      var rest := DriverFinishes(Apply(s, step), d);
      RunOne(s, step);
      RunJoin(s, [step], rest);
      steps := [step] + rest;
    }
  }

  lemma {:induction false} DriversFinish(s: State, n: nat) returns (steps: seq<Step>)
    requires Safe(s) && n <= |s.stages|
    ensures var t := Run(s, steps);
            Safe(t) && t.phases == s.phases && |t.stages| == |s.stages| && forall d | 0 <= d < n :: t.stages[d].Done?
    decreases n
  {
    hide Guarded, Lined, Covered;
    steps := [];
    if n > 0 {
      var most := DriversFinish(s, n - 1);
      var last := DriverFinishes(Run(s, most), n - 1);
      RunJoin(s, most, last);
      steps := most + last;
    }
  }

  /** From every reachable state some continuation brings every call and driver to its end. */
  lemma Settles(before: seq<Step>) returns (after: seq<Step>)
    ensures AllOver(Run(EMPTY, before + after)) && AccountedFor(Run(EMPTY, before + after))
  {
    hide Guarded, Lined, Covered;
    EveryRunSafe(before);
    var s := Run(EMPTY, before);
    var calls := CallsFinish(s, |s.phases|);
    var t := Run(s, calls);
    var rest := DriversFinish(t, |t.stages|);
    after := calls + rest;
    RunJoin(s, calls, rest);
    RunJoin(EMPTY, before, after);
    AllAccountedFor(before + after);
  }
}
