/** What the dispatch protocol promises, over every run from an empty harness. */
module DispatchTheorems {
  import opened CallQueue
  import opened Frames
  import opened Dispatch
  import opened DispatchInvariant
  import opened DispatchLine
  import opened DispatchCover
  import opened DispatchRuns

  // ---- No queued call is stranded ----

  /** The calls in the queue that name Job `j`. */
  function QueuedFor(pending: Buckets, j: nat): set<nat> {
    set k, i | k in pending && 0 <= i < |pending[k]| && pending[k][i].target == j :: pending[k][i].call
  }

  lemma QueuedAreWaiting(s: State, j: nat)
    requires Guarded(s) && Lined(s)
    ensures QueuedFor(s.pending, j) == Waiting(s.targets, s.places, j)
  {
    hide Phased, Targeted, Routed, Working, Held, Shadowed, Watched, Evicted, Sending, Ticketed, Ordered, Claimed;
    forall c | c in QueuedFor(s.pending, j) ensures c in Waiting(s.targets, s.places, j) {
      var k, i :| k in s.pending && 0 <= i < |s.pending[k]| && s.pending[k][i].target == j && s.pending[k][i].call == c;
      assert EntryFits(s.asks, s.targets, s.places, k, s.pending[k][i]);
    }
    forall c | c in Waiting(s.targets, s.places, j) ensures c in QueuedFor(s.pending, j) {
      assert Enqueued(s.asks, s.targets, s.pending, c);
      var k := s.asks[c].key;
      var i :| 0 <= i < |s.pending[k]| && s.pending[k][i] == EntryOf(s.asks, s.targets, c);
    }
  }

  lemma QueuedHas(pending: Buckets, k: Key, i: nat)
    requires k in pending && i < |pending[k]|
    ensures pending[k][i].call in QueuedFor(pending, pending[k][i].target)
  {
  }

  /** Calls queued for a Job never outnumber its drivers yet to run and the calls about to start one;
      once there are none of either, no queue entry names the Job. */
  lemma NoneStranded(steps: seq<Step>, j: nat)
    ensures var s := Run(EMPTY, steps);
            && |QueuedFor(s.pending, j)| <= |Unrun(s.drivers, s.stages, j)| + |Between(s.phases, s.targets, j)|
            && (Unrun(s.drivers, s.stages, j) == {} && Between(s.phases, s.targets, j) == {} ==>
                  forall k, i | k in s.pending && 0 <= i < |s.pending[k]| :: s.pending[k][i].target != j)
  {
    hide Guarded, Lined;
    var s := Run(EMPTY, steps);
    EveryRunSafe(steps);
    QueuedAreWaiting(s, j);
    assert CoveredFor(s, j);
    if Unrun(s.drivers, s.stages, j) == {} && Between(s.phases, s.targets, j) == {} {
      forall k, i | k in s.pending && 0 <= i < |s.pending[k]| ensures s.pending[k][i].target != j {
        QueuedHas(s.pending, k, i);
      }
    }
  }

  // ---- The terminal obligation is linear ----

  /** The call's guard is in the parked map, with its `begin_call`, or with a driver. */
  predicate HeldInMap(s: State, c: nat) {
    c in s.parked
  }

  predicate HeldByBegin(s: State, c: nat) {
    In(s, c, DroppingBack)
  }

  /** A call's guard has at most one holder. While it has one, no terminal was sent; once it has none,
      the channel carries one terminal as its last frame, or none because the buffer was full or the
      receiver gone when the guard dropped. */
  ghost predicate HeldOnce(s: State, c: nat)
    requires Row(s, c)
  {
    && !(HeldInMap(s, c) && HeldByBegin(s, c))
    && (forall d | HeldBy(s.stages, d, c) :: !HeldInMap(s, c) && !HeldByBegin(s, c))
    && (forall d, e | HeldBy(s.stages, d, c) && HeldBy(s.stages, e, c) :: d == e)
    && (if HeldInMap(s, c) || HeldByBegin(s, c) || exists d :: HeldBy(s.stages, d, c)
        then Running(s.chans[c]) else Ended(s.chans[c]))
  }

  lemma HolderIs(s: State, c: nat)
    requires Safe(s) && Row(s, c)
    ensures HeldInMap(s, c) <==> s.holders[c].Parked?
    ensures HeldByBegin(s, c) <==> s.holders[c].WithBegin?
    ensures forall d | HeldBy(s.stages, d, c) :: s.holders[c] == WithDriver(d)
    ensures s.holders[c].WithDriver? ==> HeldBy(s.stages, s.holders[c].d, c)
    ensures s.holders[c].Nobody? <==> BeforeOpen(s.phases[c])
    ensures if s.holders[c].Discharged? then Ended(s.chans[c]) else Running(s.chans[c])
  {
    hide Targeted, Routed, Working, Shadowed, Watched, Evicted, Lined, Covered;
    assert PhaseFits(s.phases[c], s.places[c], s.holders[c]);
    forall d: nat | HeldBy(s.stages, d, c) ensures s.holders[c] == WithDriver(d) {
      assert Holding(s.holders, d, s.stages[d]);
    }
  }

  lemma OneHolder(steps: seq<Step>, c: nat)
    requires Row(Run(EMPTY, steps), c) && !BeforeOpen(Run(EMPTY, steps).phases[c])
    ensures HeldOnce(Run(EMPTY, steps), c)
  {
    hide Guarded, Lined, Covered;
    EveryRunSafe(steps);
    HolderIs(Run(EMPTY, steps), c);
  }

  predicate Over(p: Phase) {
    p.Returned? || p.Refused? || p.Rejected?
  }

  ghost predicate AllOver(s: State) {
    && (forall c | 0 <= c < |s.phases| :: Over(s.phases[c]))
    && (forall d | 0 <= d < |s.stages| :: s.stages[d].Done?)
  }

  /** Nothing is queued, no guard is left, and every channel that was opened has its end accounted for. */
  ghost predicate AccountedFor(s: State) {
    && (forall k | k in s.pending :: s.pending[k] == [])
    && s.parked == {}
    && (forall c: nat :: !HeldByBegin(s, c))
    && (forall c: nat, d: nat :: !HeldBy(s.stages, d, c))
    && (forall c | 0 <= c < |s.phases| && !s.phases[c].Refused? :: c < |s.chans| && Ended(s.chans[c]))
  }

  lemma NoneQueued(s: State)
    requires Safe(s) && AllOver(s)
    ensures forall c | 0 <= c < |s.places| :: !s.places[c].Queued?
    ensures forall k | k in s.pending :: s.pending[k] == []
  {
    hide Phased, Targeted, Routed, Working, Held, Shadowed, Watched, Evicted, Sending, Ticketed, Ordered, Claimed;
    forall c | 0 <= c < |s.places| ensures !s.places[c].Queued? {
      var j := TargetId(s.targets[c]);
      assert CoveredFor(s, j);
      assert Unrun(s.drivers, s.stages, j) == {} && Between(s.phases, s.targets, j) == {};
      assert s.places[c].Queued? ==> c in Waiting(s.targets, s.places, j);
    }
    forall k | k in s.pending ensures s.pending[k] == [] {
      assert s.pending[k] != [] ==> EntryFits(s.asks, s.targets, s.places, k, s.pending[k][0]);
    }
  }

  lemma CallSettled(s: State, c: nat)
    requires Safe(s) && Row(s, c) && Over(s.phases[c]) && !s.places[c].Queued?
    requires forall d | 0 <= d < |s.stages| :: s.stages[d].Done?
    ensures !s.holders[c].Parked? && (s.phases[c].Refused? || Ended(s.chans[c]))
  {
    hide Targeted, Routed, Working, Held, Shadowed, Evicted, Sending, Lined, Covered;
    HolderIs(s, c);
    assert PhaseFits(s.phases[c], s.places[c], s.holders[c]);
    assert s.holders[c].Parked? ==> Owed(c, s.phases[c], s.places[c], c in s.shadow, StageOf(s.stages, s.places[c]));
  }

  lemma NothingOwed(s: State)
    requires Safe(s) && AllOver(s)
    ensures AccountedFor(s)
  {
    hide Targeted, Routed, Working, Shadowed, Watched, Evicted, Sending, Lined, Covered;
    NoneQueued(s);
    forall c | 0 <= c < |s.holders| ensures !s.holders[c].Parked? && (s.phases[c].Refused? || Ended(s.chans[c])) {
      CallSettled(s, c);
    }
  }

  /** Every `begin_call` and driver has finished: nothing is left owing. */
  lemma AllAccountedFor(steps: seq<Step>)
    requires AllOver(Run(EMPTY, steps))
    ensures AccountedFor(Run(EMPTY, steps))
  {
    hide Guarded, Lined, Covered;
    EveryRunSafe(steps);
    NothingOwed(Run(EMPTY, steps));
  }

  // ---- Routing ----

  predicate WorksOn(g: Stage, c: nat) {
    (g.Taking? || g.Dialling? || g.Forgetting?) && g.call == c
  }

  /** The call has the tool and grant the driver's Job was created with. */
  predicate DriverAtHome(s: State, d: nat, c: nat) {
    && d < |s.drivers| && c < |s.asks| && s.drivers[d].job in s.jobs
    && s.jobs[s.drivers[d].job] == s.asks[c].key && s.drivers[d].tool == s.asks[c].key.tool
  }

  ghost predicate DriversAtHome(s: State) {
    forall d: nat, c: nat | d < |s.stages| && WorksOn(s.stages[d], c) :: DriverAtHome(s, d, c)
  }

  /** The entry is the call as it was asked for, aimed at a Job created for its bucket. */
  predicate AtHome(s: State, k: Key, e: Pending) {
    && e.key == k && e.call < |s.asks| && e.args == s.asks[e.call].args && s.asks[e.call].key == k
    && e.target in s.jobs && s.jobs[e.target] == k
  }

  ghost predicate EntriesAtHome(s: State) {
    forall k, i | k in s.pending && 0 <= i < |s.pending[k]| :: AtHome(s, k, s.pending[k][i])
  }

  lemma DriverHome(s: State, d: nat, c: nat)
    requires Safe(s) && d < |s.stages| && WorksOn(s.stages[d], c)
    ensures DriverAtHome(s, d, c)
  {
    hide Phased, Held, Shadowed, Watched, Evicted, Sending, Lined, Covered;
    assert WorkFits(s.targets, s.places, d, s.drivers[d].job, c);
    assert TargetFits(s.jobs, c, s.asks[c], s.phases[c], s.targets[c]);
  }

  lemma EntryHome(s: State, k: Key, i: nat)
    requires Safe(s) && k in s.pending && i < |s.pending[k]|
    ensures AtHome(s, k, s.pending[k][i])
  {
    hide Phased, Targeted, Routed, Working, Held, Shadowed, Watched, Evicted, Sending, Ticketed, Ordered, Claimed, Covered;
    EntryTargeted(s, k, i);
    assert EntryFits(s.asks, s.targets, s.places, k, s.pending[k][i]);
  }

  lemma DriversHome(s: State)
    requires Safe(s)
    ensures DriversAtHome(s)
  {
    hide Guarded, Lined, Covered;
    forall d: nat, c: nat | d < |s.stages| && WorksOn(s.stages[d], c) ensures DriverAtHome(s, d, c) {
      DriverHome(s, d, c);
    }
  }

  lemma EntriesHome(s: State)
    requires Safe(s)
    ensures EntriesAtHome(s)
  {
    hide Guarded, Lined, Covered;
    forall k, i | k in s.pending && 0 <= i < |s.pending[k]| ensures AtHome(s, k, s.pending[k][i]) {
      EntryHome(s, k, i);
    }
  }

  lemma RoutedHome(steps: seq<Step>)
    ensures DriversAtHome(Run(EMPTY, steps)) && EntriesAtHome(Run(EMPTY, steps))
  {
    hide Guarded, Lined, Covered;
    EveryRunSafe(steps);
    DriversHome(Run(EMPTY, steps));
    EntriesHome(Run(EMPTY, steps));
  }

  /** Calls for one Job are claimed in the order they were enqueued, each at most once. */
  lemma ClaimedInOrder(steps: seq<Step>, i: nat, j: nat)
    requires var s := Run(EMPTY, steps); i < j < |s.claims|
    ensures var s := Run(EMPTY, steps);
            && s.claims[i] < |s.tickets| && s.claims[j] < |s.tickets| && s.claims[i] < |s.targets| && s.claims[j] < |s.targets|
            && s.claims[i] != s.claims[j]
            && (TargetId(s.targets[s.claims[i]]) == TargetId(s.targets[s.claims[j]]) ==>
                  s.tickets[s.claims[i]] < s.tickets[s.claims[j]])
  {
    hide Phased, Targeted, Routed, Working, Held, Shadowed, Watched, Evicted, Sending, Ticketed, Ordered, Covered;
    EveryRunSafe(steps);
  }

  predicate Left(p: Place) {
    p.ClaimedBy? || p.Withdrawn? || p.EvictedBy?
  }

  lemma ClaimLeaves(s: State, d: nat, k: Key, c: nat)
    requires Safe(s) && CanClaim(s, d, k) && c < |s.places| && Left(s.places[c])
    ensures Stays(s, DoClaim(s, d, k), c)
  {
    hide Phased, Targeted, Routed, Working, Held, Shadowed, Watched, Evicted, Sending, Ticketed, Ordered, Claimed, Covered;
    assert EntryFits(s.asks, s.targets, s.places, k, s.pending[k][Position(s.pending[k], s.drivers[d].job)]);
  }

  lemma WithdrawLeaves(s: State, w: nat, c: nat)
    requires Safe(s) && In(s, w, Withdrawing) && c < |s.places| && Left(s.places[c])
    ensures Stays(s, DoWithdraw(s, w), c)
  {
    hide Phased, Targeted, Routed, Working, Held, Shadowed, Watched, Evicted, Sending, Ticketed, Listed, Ordered, Claimed, Covered;
    if Names(Bucket(s.pending, s.asks[w].key), w) {
      NamesQueued(s, w, s.asks[w].key);
    }
  }

  lemma EnqueueLeaves(s: State, w: nat, c: nat)
    requires Safe(s) && In(s, w, Enqueuing) && c < |s.places| && Left(s.places[c])
    ensures Stays(s, DoEnqueue(s, w), c)
  {
    hide Targeted, Routed, Working, Held, Shadowed, Watched, Evicted, Sending, Lined, Covered;
    assert PhaseFits(s.phases[w], s.places[w], s.holders[w]);
  }

  lemma DrainLeaves(s: State, d: nat, c: nat)
    requires Safe(s) && At(s, d).Draining? && c < |s.places| && Left(s.places[c])
    ensures Stays(s, DoDrain(s, d), c)
  {
    hide Phased, Targeted, Routed, Working, Held, Shadowed, Watched, Evicted, Sending, Ticketed, Listed, Ordered, Claimed, Covered;
    if c in DrainedCalls(s.pending, s.drivers[d].tool) {
      DrainedIs(s.asks, s.targets, s.places, s.pending, s.drivers[d].tool, c);
    }
  }

  /** How a call left the queue never changes: no later step claims, withdraws or evicts it. */
  lemma LeftStays(s: State, step: Step, c: nat)
    requires Safe(s) && c < |s.places| && Left(s.places[c])
    ensures Stays(s, Apply(s, step), c)
  {
    hide Guarded, Lined, Covered;
    match step
    case Claim(d, k) => if CanClaim(s, d, k) { ClaimLeaves(s, d, k, c); }
    case Withdraw(w) => if In(s, w, Withdrawing) { WithdrawLeaves(s, w, c); }
    case Enqueue(w) => if In(s, w, Enqueuing) { EnqueueLeaves(s, w, c); }
    case Drain(d) => if At(s, d).Draining? { DrainLeaves(s, d, c); }
    case Begin(_) =>
    case _ =>
      if OfCall(step) {
        CallLeavesPlaces(s, step);
      } else {
        DriverLeavesPlaces(s, step);
      }
  }

  predicate OfCall(step: Step) {
    || step.Resolve? || step.Create? || step.Record? || step.Open? || step.Shadow? || step.Check? || step.Unshadow?
    || step.TakeBack? || step.DropBack? || step.Spawn? || step.Receive? || step.DropReceiver?
  }

  lemma CallLeavesPlaces(s: State, step: Step)
    requires OfCall(step)
    ensures Apply(s, step).places == s.places
  {
  }

  lemma DriverLeavesPlaces(s: State, step: Step)
    requires !OfCall(step) && !step.Begin? && !step.Enqueue? && !step.Withdraw? && !step.Claim? && !step.Drain?
    ensures Apply(s, step).places == s.places
  {
  }

  predicate Stays(s: State, t: State, c: nat) {
    c < |s.places| && c < |t.places| && t.places[c] == s.places[c]
  }

  lemma {:induction false} StaysOn(s: State, steps: seq<Step>, c: nat)
    requires Safe(s) && c < |s.places| && Left(s.places[c])
    ensures Safe(Run(s, steps)) && Stays(s, Run(s, steps), c)
    decreases |steps|
  {
    hide Guarded, Lined, Covered;
    if steps != [] {
      StaysOn(s, steps[..|steps| - 1], c);
      var t := Run(s, steps[..|steps| - 1]);
      StepSafe(t, steps[|steps| - 1]);
      LeftStays(t, steps[|steps| - 1], c);
    }
  }

  lemma LeavesOnce(before: seq<Step>, after: seq<Step>, c: nat)
    requires c < |Run(EMPTY, before).places| && Left(Run(EMPTY, before).places[c])
    ensures Stays(Run(EMPTY, before), Run(EMPTY, before + after), c)
  {
    hide Guarded, Lined, Covered;
    EveryRunSafe(before);
    StaysOn(Run(EMPTY, before), after, c);
    RunJoin(EMPTY, before, after);
  }

  /** A call that has left is in no bucket. */
  lemma LeftIsGone(steps: seq<Step>, c: nat)
    requires c < |Run(EMPTY, steps).places| && Left(Run(EMPTY, steps).places[c])
    ensures forall k | k in Run(EMPTY, steps).pending :: !Names(Run(EMPTY, steps).pending[k], c)
  {
    hide Phased, Targeted, Routed, Working, Held, Shadowed, Watched, Evicted, Sending, Ticketed, Ordered, Claimed, Covered;
    var s := Run(EMPTY, steps);
    EveryRunSafe(steps);
    forall k | k in s.pending ensures !Names(s.pending[k], c) {
      if Names(s.pending[k], c) {
        NamesQueued(s, c, k);
      }
    }
  }

  // ---- A receiver that is gone ----

  /** What the client could have received, fixed for good. */
  predicate Shut(was: seq<Chan>, now: seq<Chan>, c: nat) {
    c < |was| && c < |now| && !now[c].open && now[c].sent == was[c].sent && now[c].taken == was[c].taken
  }

  predicate Speaks(step: Step) {
    step.Begin? || step.TakeBack? || step.DropBack? || step.Forward? || step.Hangup? || step.Fail? || step.Receive? || step.DropReceiver?
  }

  lemma SaysNothing(s: State, step: Step)
    requires !Speaks(step)
    ensures Apply(s, step).chans == s.chans
  {
  }

  lemma ShutToOne(was: seq<Chan>, s: State, step: Step, c: nat)
    requires Shut(was, s.chans, c) && (step.Begin? || step.TakeBack? || step.DropBack? || step.Receive? || step.DropReceiver?)
    ensures Shut(was, Apply(s, step).chans, c)
  {
  }

  lemma ShutToForward(was: seq<Chan>, s: State, d: nat, f: Frame, c: nat)
    requires Shut(was, s.chans, c)
    ensures Shut(was, Apply(s, Forward(d, f)).chans, c)
  {
  }

  lemma ShutToHangup(was: seq<Chan>, s: State, d: nat, c: nat)
    requires Shut(was, s.chans, c)
    ensures Shut(was, Apply(s, Hangup(d)).chans, c)
  {
  }

  lemma ShutToFail(was: seq<Chan>, s: State, d: nat, e: nat, c: nat)
    requires Shut(was, s.chans, c)
    ensures Shut(was, Apply(s, Fail(d, e)).chans, c)
  {
  }

  lemma ShutStays(was: seq<Chan>, s: State, step: Step, c: nat)
    requires Shut(was, s.chans, c)
    ensures Shut(was, Apply(s, step).chans, c)
  {
    hide Apply, Shut;
    match step
    case Forward(d, f) => ShutToForward(was, s, d, f, c);
    case Hangup(d) => ShutToHangup(was, s, d, c);
    case Fail(d, e) => ShutToFail(was, s, d, e, c);
    case _ =>
      if Speaks(step) {
        ShutToOne(was, s, step, c);
      } else {
        SaysNothing(s, step);
      }
  }

  lemma {:induction false} ShutRuns(was: seq<Chan>, s: State, steps: seq<Step>, c: nat)
    requires Shut(was, s.chans, c)
    ensures Shut(was, Run(s, steps).chans, c)
    decreases |steps|
  {
    hide Apply, Shut;
    if steps != [] {
      ShutRuns(was, s, steps[..|steps| - 1], c);
      ShutStays(was, Run(s, steps[..|steps| - 1]), steps[|steps| - 1], c);
    }
  }

  /** Once the client of a begun call has dropped its receiver, no frame reaches its channel in any continuation. */
  lemma DroppedHearsNothing(before: seq<Step>, c: nat, after: seq<Step>)
    requires Row(Run(EMPTY, before), c) && Run(EMPTY, before).phases[c].Returned?
    ensures Shut(Run(EMPTY, before).chans, Run(EMPTY, before + [DropReceiver(c)] + after).chans, c)
  {
    var s := Run(EMPTY, before);
    RunJoin(EMPTY, before, [DropReceiver(c)]);
    RunJoin(EMPTY, before + [DropReceiver(c)], after);
    RunOne(s, DropReceiver(c));
    ShutRuns(s.chans, Apply(s, DropReceiver(c)), after, c);
  }
}
