/** No more calls wait for a Job than there are drivers, started or about to be, still to look for them. */
module DispatchCover {
  import opened CallQueue
  import opened Dispatch
  import opened DispatchInvariant

  predicate InFlight(p: Phase) {
    p.Checking? || p.Withdrawing? || p.Spawning?
  }

  function Waiting(targets: seq<Target>, places: seq<Place>, j: nat): set<nat> {
    set c | 0 <= c < |places| && c < |targets| && places[c].Queued? && TargetId(targets[c]) == j
  }

  function Unrun(drivers: seq<Driver>, stages: seq<Stage>, j: nat): set<nat> {
    set d | 0 <= d < |stages| && d < |drivers| && stages[d].Claiming? && drivers[d].job == j
  }

  function Between(phases: seq<Phase>, targets: seq<Target>, j: nat): set<nat> {
    set c | 0 <= c < |phases| && c < |targets| && InFlight(phases[c]) && TargetId(targets[c]) == j
  }

  predicate CoveredFor(s: State, j: nat) {
    |Waiting(s.targets, s.places, j)| <= |Unrun(s.drivers, s.stages, j)| + |Between(s.phases, s.targets, j)|
  }

  ghost predicate Covered(s: State) {
    forall j: nat :: CoveredFor(s, j)
  }

  lemma {:induction false} Smaller(a: set<nat>, b: set<nat>)
    requires a <= b
    ensures |a| <= |b|
    decreases a
  {
    if a != {} {
      var x :| x in a;
      Smaller(a - {x}, b - {x});
    }
  }

  /** Fewer wait and no fewer are still to look. */
  lemma StillCovered(s: State, t: State, j: nat)
    requires CoveredFor(s, j)
    requires Waiting(t.targets, t.places, j) <= Waiting(s.targets, s.places, j)
    requires Unrun(s.drivers, s.stages, j) <= Unrun(t.drivers, t.stages, j)
    requires Between(s.phases, s.targets, j) <= Between(t.phases, t.targets, j)
    ensures CoveredFor(t, j)
  {
    Smaller(Waiting(t.targets, t.places, j), Waiting(s.targets, s.places, j));
    Smaller(Unrun(s.drivers, s.stages, j), Unrun(t.drivers, t.stages, j));
    Smaller(Between(s.phases, s.targets, j), Between(t.phases, t.targets, j));
  }

  lemma WaitingMore(targets: seq<Target>, places: seq<Place>, c: nat, j: nat)
    requires c < |places| == |targets| && !places[c].Queued?
    ensures Waiting(targets, places[c := Queued], j) ==
            if TargetId(targets[c]) == j then Waiting(targets, places, j) + {c} else Waiting(targets, places, j)
    ensures c !in Waiting(targets, places, j)
  {
  }

  lemma WaitingLess(targets: seq<Target>, places: seq<Place>, c: nat, place: Place, j: nat)
    requires c < |places| == |targets| && places[c].Queued? && !place.Queued?
    ensures Waiting(targets, places[c := place], j) == Waiting(targets, places, j) - {c}
    ensures c in Waiting(targets, places, j) <==> TargetId(targets[c]) == j
  {
  }

  lemma BetweenMore(phases: seq<Phase>, targets: seq<Target>, c: nat, phase: Phase, j: nat)
    requires c < |phases| == |targets| && !InFlight(phases[c]) && InFlight(phase)
    ensures Between(phases[c := phase], targets, j) ==
            if TargetId(targets[c]) == j then Between(phases, targets, j) + {c} else Between(phases, targets, j)
    ensures c !in Between(phases, targets, j)
  {
  }

  lemma BetweenLess(phases: seq<Phase>, targets: seq<Target>, c: nat, phase: Phase, j: nat)
    requires c < |phases| == |targets| && InFlight(phases[c]) && !InFlight(phase)
    ensures Between(phases[c := phase], targets, j) == Between(phases, targets, j) - {c}
    ensures c in Between(phases, targets, j) <==> TargetId(targets[c]) == j
  {
  }

  lemma BetweenSame(phases: seq<Phase>, targets: seq<Target>, c: nat, phase: Phase, j: nat)
    requires c < |phases| == |targets| && InFlight(phases[c]) && InFlight(phase)
    ensures Between(phases[c := phase], targets, j) == Between(phases, targets, j)
  {
  }

  lemma EnqueueCovers(s: State, c: nat, j: nat)
    requires Aligned(s) && CoveredFor(s, j) && In(s, c, Enqueuing) && s.places[c].Outside?
    ensures CoveredFor(DoEnqueue(s, c), j)
  {
    WaitingMore(s.targets, s.places, c, j);
    BetweenMore(s.phases, s.targets, c, Checking, j);
  }

  lemma WithdrawCovers(s: State, c: nat, j: nat)
    requires Aligned(s) && CoveredFor(s, j) && In(s, c, Withdrawing)
    requires Names(Bucket(s.pending, s.asks[c].key), c) ==> s.places[c].Queued?
    ensures CoveredFor(DoWithdraw(s, c), j)
  {
    if Names(Bucket(s.pending, s.asks[c].key), c) {
      WaitingLess(s.targets, s.places, c, Withdrawn, j);
      BetweenLess(s.phases, s.targets, c, Unshadowing, j);
    } else {
      BetweenSame(s.phases, s.targets, c, Spawning, j);
    }
  }

  lemma UnrunMore(drivers: seq<Driver>, stages: seq<Stage>, driver: Driver, j: nat)
    requires |drivers| == |stages|
    ensures Unrun(drivers + [driver], stages + [Claiming], j) ==
            if driver.job == j then Unrun(drivers, stages, j) + {|stages|} else Unrun(drivers, stages, j)
    ensures |stages| !in Unrun(drivers, stages, j)
  {
  }

  lemma SpawnCovers(s: State, c: nat, j: nat)
    requires Aligned(s) && CoveredFor(s, j) && In(s, c, Spawning)
    ensures CoveredFor(DoSpawn(s, c), j)
  {
    BetweenLess(s.phases, s.targets, c, Returned, j);
    UnrunMore(s.drivers, s.stages, DoSpawn(s, c).drivers[|s.drivers|], j);
  }

  lemma ClaimPairs(s: State, d: nat, c: nat, stage: Stage, j: nat)
    requires Aligned(s) && CoveredFor(s, j) && c < |s.places| && d < |s.stages| && !stage.Claiming?
    requires s.stages[d].Claiming? && s.places[c].Queued? && TargetId(s.targets[c]) == s.drivers[d].job
    ensures CoveredFor(s.(places := s.places[c := ClaimedBy(d)], stages := s.stages[d := stage]), j)
  {
    var t := s.(places := s.places[c := ClaimedBy(d)], stages := s.stages[d := stage]);
    if s.drivers[d].job == j {
      assert Waiting(t.targets, t.places, j) == Waiting(s.targets, s.places, j) - {c};
      assert Unrun(t.drivers, t.stages, j) == Unrun(s.drivers, s.stages, j) - {d};
    } else {
      StillCovered(s, t, j);
    }
  }

  lemma ClaimCovers(s: State, d: nat, k: Key, j: nat)
    requires Aligned(s) && Listed(s.asks, s.targets, s.places, s.pending) && CoveredFor(s, j) && CanClaim(s, d, k)
    ensures CoveredFor(DoClaim(s, d, k), j)
  {
    var i := Position(s.pending[k], s.drivers[d].job);
    assert EntryFits(s.asks, s.targets, s.places, k, s.pending[k][i]);
    ClaimPairs(s, d, s.pending[k][i].call, Taking(s.pending[k][i].call), j);
  }

  lemma ClaimCoversAll(s: State, d: nat, k: Key)
    requires Aligned(s) && Listed(s.asks, s.targets, s.places, s.pending) && Covered(s) && CanClaim(s, d, k)
    ensures Covered(DoClaim(s, d, k))
  {
    forall j: nat ensures CoveredFor(DoClaim(s, d, k), j) {
      ClaimCovers(s, d, k, j);
    }
  }

  lemma WaitingIsAimed(s: State, c: nat, j: nat)
    requires Guarded(s) && Listed(s.asks, s.targets, s.places, s.pending) && c in Waiting(s.targets, s.places, j)
    ensures var k := s.asks[c].key;
            k in s.pending && Aimed(s.pending[k], j) && j in s.jobs && s.jobs[j] == k
  {
    hide Routed, Working, Held, Shadowed, Watched, Evicted, Sending;
    var k := s.asks[c].key;
    assert Enqueued(s.asks, s.targets, s.pending, c);
    var i :| 0 <= i < |s.pending[k]| && s.pending[k][i] == EntryOf(s.asks, s.targets, c);
    assert TargetFits(s.jobs, c, s.asks[c], s.phases[c], s.targets[c]);
    assert PhaseFits(s.phases[c], s.places[c], s.holders[c]);
  }

  /** A driver that finds nothing leaves nothing behind: its tool's buckets are where its Job's calls wait. */
  lemma NothingLeft(s: State, d: nat)
    requires Guarded(s) && Listed(s.asks, s.targets, s.places, s.pending) && NothingToClaim(s, d)
    ensures Waiting(s.targets, s.places, s.drivers[d].job) == {}
  {
    hide Phased, Targeted, Working, Held, Shadowed, Watched, Evicted, Sending;
    var j := s.drivers[d].job;
    if Waiting(s.targets, s.places, j) != {} {
      var c :| c in Waiting(s.targets, s.places, j);
      WaitingIsAimed(s, c, j);
    }
  }

  lemma FindNoneCovers(s: State, d: nat, j: nat)
    requires Guarded(s) && Listed(s.asks, s.targets, s.places, s.pending) && CoveredFor(s, j) && NothingToClaim(s, d)
    ensures CoveredFor(Quit(s, d), j)
  {
    hide Phased, Targeted, Routed, Working, Held, Shadowed, Watched, Evicted, Sending, Listed;
    if s.drivers[d].job == j {
      NothingLeft(s, d);
    } else {
      StillCovered(s, Quit(s, d), j);
    }
  }

  /** Nobody new waits, and whoever was still to look still is. */
  lemma QuietCovers(s: State, t: State)
    requires Aligned(s) && Aligned(t) && Covered(s)
    requires forall c | 0 <= c < |s.phases| && InFlight(s.phases[c]) ::
               c < |t.phases| && InFlight(t.phases[c]) && t.targets[c] == s.targets[c]
    requires forall d | 0 <= d < |s.stages| && s.stages[d].Claiming? ::
               d < |t.stages| && t.stages[d].Claiming? && t.drivers[d] == s.drivers[d]
    requires forall c | 0 <= c < |t.places| && t.places[c].Queued? ::
               c < |s.places| && s.places[c].Queued? && t.targets[c] == s.targets[c]
    ensures Covered(t)
  {
    forall j: nat ensures CoveredFor(t, j) {
      StillCovered(s, t, j);
    }
  }
}
