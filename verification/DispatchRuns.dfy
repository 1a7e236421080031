/** Every run of the dispatch protocol. */
module DispatchRuns {
  import opened CallQueue
  import opened Frames
  import opened Dispatch
  import opened DispatchInvariant
  import opened DispatchLine
  import opened DispatchCover

  ghost predicate Safe(s: State) {
    Guarded(s) && Lined(s) && Covered(s)
  }

  /** A call the withdrawal finds is one still queued. */
  lemma NamesQueued(s: State, c: nat, k: Key)
    requires Listed(s.asks, s.targets, s.places, s.pending) && c < |s.places| && Names(Bucket(s.pending, k), c)
    ensures s.places[c].Queued?
  {
    var i :| 0 <= i < |s.pending[k]| && s.pending[k][i].call == c;
    assert EntryFits(s.asks, s.targets, s.places, k, s.pending[k][i]);
  }

  lemma EntryRow(s: State, k: Key, i: nat)
    requires Safe(s) && k in s.pending && i < |s.pending[k]|
    ensures Row(s, s.pending[k][i].call)
  {
    hide Phased, Targeted, Routed, Working, Held, Shadowed, Watched, Evicted, Sending, Ticketed, Ordered, Claimed, Covered;
    assert EntryFits(s.asks, s.targets, s.places, k, s.pending[k][i]);
  }

  lemma BeginSafe(s: State, ask: Ask)
    requires Safe(s)
    ensures Safe(Apply(s, Begin(ask)))
  {
    hide Ticketed, Listed, Ordered, Claimed, Held, Watched, Shadowed, Evicted, Working, Routed, Targeted, Sending;
    BeginKeeps(s, ask);
    BeginLines(s, ask);
    QuietCovers(s, DoBegin(s, ask));
  }

  lemma ResolveSafe(s: State, c: nat, now: nat)
    requires Safe(s)
    ensures Safe(Apply(s, Resolve(c, now)))
  {
    hide Ticketed, Listed, Ordered, Claimed, Held, Watched, Shadowed, Evicted, Working, Routed, Targeted, Sending;
    if In(s, c, Resolving) {
      var t := DoResolve(s, c, now);
      ResolveKeeps(s, c, now);
      if t.phases[c].Opening? {
        TargetLines(s, c, t.targets[c]);
      }
      QuietCovers(s, t);
    }
  }

  lemma CreateSafe(s: State, c: nat, ok: bool, name: string)
    requires Safe(s)
    ensures Safe(Apply(s, Create(c, ok, name)))
  {
    hide Ticketed, Listed, Ordered, Claimed, Held, Watched, Shadowed, Evicted, Working, Routed, Targeted, Sending;
    if In(s, c, Creating) {
      var t := DoCreate(s, c, ok, name);
      CreateKeeps(s, c, ok, name);
      if ok {
        TargetLines(s, c, t.targets[c]);
      }
      QuietCovers(s, t);
    }
  }

  lemma RecordSafe(s: State, c: nat, now: nat)
    requires Safe(s)
    ensures Safe(Apply(s, Record(c, now)))
  {
    hide Ticketed, Listed, Ordered, Claimed, Held, Watched, Shadowed, Evicted, Working, Routed, Targeted, Sending;
    if In(s, c, Recording) {
      RecordKeeps(s, c, now);
      QuietCovers(s, Apply(s, Record(c, now)));
    }
  }

  lemma OpenSafe(s: State, c: nat)
    requires Safe(s)
    ensures Safe(Apply(s, Open(c)))
  {
    hide Ticketed, Listed, Ordered, Claimed, Held, Watched, Shadowed, Evicted, Working, Routed, Targeted, Sending;
    if In(s, c, Opening) {
      OpenKeeps(s, c);
      QuietCovers(s, Apply(s, Open(c)));
    }
  }

  lemma ShadowSafe(s: State, c: nat)
    requires Safe(s)
    ensures Safe(Apply(s, Shadow(c)))
  {
    hide Ticketed, Listed, Ordered, Claimed, Held, Watched, Shadowed, Evicted, Working, Routed, Targeted, Sending;
    if In(s, c, Shadowing) {
      ShadowKeeps(s, c);
      QuietCovers(s, Apply(s, Shadow(c)));
    }
  }

  lemma EnqueueSafe(s: State, c: nat)
    requires Safe(s)
    ensures Safe(Apply(s, Enqueue(c)))
  {
    hide Ticketed, Listed, Ordered, Claimed, Held, Watched, Shadowed, Evicted, Working, Routed, Targeted, Sending;
    if In(s, c, Enqueuing) {
      EnqueueKeeps(s, c);
      EnqueueLines(s, c);
      forall j: nat ensures CoveredFor(DoEnqueue(s, c), j) {
        EnqueueCovers(s, c, j);
      }
    }
  }

  lemma CheckSafe(s: State, c: nat)
    requires Safe(s)
    ensures Safe(Apply(s, Check(c)))
  {
    hide Ticketed, Listed, Ordered, Claimed, Held, Watched, Shadowed, Evicted, Working, Routed, Targeted, Sending;
    if In(s, c, Checking) {
      CheckKeeps(s, c);
      QuietCovers(s, Apply(s, Check(c)));
    }
  }

  lemma WithdrawSafe(s: State, c: nat)
    requires Safe(s)
    ensures Safe(Apply(s, Withdraw(c)))
  {
    hide Ticketed, Ordered, Claimed, Watched, Shadowed, Evicted, Routed, Targeted, Sending;
    if In(s, c, Withdrawing) {
      if Names(Bucket(s.pending, s.asks[c].key), c) {
        NamesQueued(s, c, s.asks[c].key);
        TakenOutKeeps(s, c);
      } else {
        MissedKeeps(s, c);
      }
      WithdrawLines(s, c);
      forall j: nat ensures CoveredFor(DoWithdraw(s, c), j) {
        WithdrawCovers(s, c, j);
      }
    }
  }

  lemma UnshadowSafe(s: State, c: nat)
    requires Safe(s)
    ensures Safe(Apply(s, Unshadow(c)))
  {
    hide Ticketed, Listed, Ordered, Claimed, Held, Watched, Shadowed, Evicted, Working, Routed, Targeted, Sending;
    if In(s, c, Unshadowing) {
      UnshadowKeeps(s, c);
      QuietCovers(s, Apply(s, Unshadow(c)));
    }
  }

  lemma TakeBackSafe(s: State, c: nat)
    requires Safe(s)
    ensures Safe(Apply(s, TakeBack(c)))
  {
    hide Ticketed, Listed, Ordered, Claimed, Held, Watched, Shadowed, Evicted, Working, Routed, Targeted, Sending;
    if In(s, c, TakingBack) {
      if c in s.parked { TakenBackKeeps(s, c); } else { TakenAlreadyKeeps(s, c); }
      QuietCovers(s, Apply(s, TakeBack(c)));
    }
  }

  lemma DropBackSafe(s: State, c: nat)
    requires Safe(s)
    ensures Safe(Apply(s, DropBack(c)))
  {
    hide Ticketed, Listed, Ordered, Claimed, Held, Watched, Shadowed, Evicted, Working, Routed, Targeted, Sending;
    if In(s, c, DroppingBack) {
      DropBackKeeps(s, c);
      QuietCovers(s, Apply(s, DropBack(c)));
    }
  }

  lemma SpawnSafe(s: State, c: nat)
    requires Safe(s)
    ensures Safe(Apply(s, Spawn(c)))
  {
    hide Ticketed, Listed, Ordered, Claimed, Held, Watched, Shadowed, Evicted, Working, Routed, Targeted, Sending;
    if In(s, c, Spawning) {
      SpawnKeeps(s, c);
      forall j: nat ensures CoveredFor(DoSpawn(s, c), j) {
        SpawnCovers(s, c, j);
      }
    }
  }

  lemma ClaimSafe(s: State, d: nat, k: Key)
    requires Safe(s)
    ensures Safe(Apply(s, Claim(d, k)))
  {
    hide Ticketed, Ordered, Claimed, Watched, Shadowed, Evicted, Routed, Targeted, Sending;
    if CanClaim(s, d, k) {
      EntryTargeted(s, k, Position(s.pending[k], s.drivers[d].job));
      ClaimKeeps(s, d, k);
      ClaimOrders(s, d, k);
      ClaimCoversAll(s, d, k);
    }
  }

  lemma FindNoneSafe(s: State, d: nat)
    requires Safe(s)
    ensures Safe(Apply(s, FindNone(d)))
  {
    hide Ticketed, Ordered, Claimed, Watched, Shadowed, Evicted, Routed, Targeted, Sending;
    if NothingToClaim(s, d) {
      QuitKeeps(s, d);
      forall j: nat ensures CoveredFor(Quit(s, d), j) {
        FindNoneCovers(s, d, j);
      }
    }
  }

  lemma TakeSafe(s: State, d: nat)
    requires Safe(s)
    ensures Safe(Apply(s, Take(d)))
  {
    hide Ticketed, Ordered, Claimed, Watched, Shadowed, Evicted, Routed, Targeted, Sending;
    if At(s, d).Taking? && Row(s, At(s, d).call) {
      if At(s, d).call in s.parked { TakenOverKeeps(s, d, At(s, d).call); } else { QuitKeeps(s, d); }
      QuietCovers(s, Apply(s, Take(d)));
    }
  }

  lemma ForwardSafe(s: State, d: nat, f: Frame)
    requires Safe(s)
    ensures Safe(Apply(s, Forward(d, f)))
  {
    hide Ticketed, Listed, Ordered, Claimed, Watched, Shadowed, Evicted, Routed, Targeted;
    if CanForward(s, d) {
      if IsTerminal(f) {
        FinishedKeeps(s, d, At(s, d).call, Sent(s.chans[At(s, d).call], f), true);
      } else {
        ForwardKeeps(s, d, f);
      }
      QuietCovers(s, Apply(s, Forward(d, f)));
    }
  }

  lemma HangupSafe(s: State, d: nat)
    requires Safe(s)
    ensures Safe(Apply(s, Hangup(d)))
  {
    hide Ticketed, Listed, Ordered, Claimed, Watched, Shadowed, Evicted, Routed, Targeted;
    if At(s, d).Dialling? && Row(s, At(s, d).call) {
      FailEnds(s.chans[At(s, d).call]);
      FinishedKeeps(s, d, At(s, d).call, TryFail(s.chans[At(s, d).call]), false);
      QuietCovers(s, Apply(s, Hangup(d)));
    }
  }

  lemma ForgetSafe(s: State, d: nat)
    requires Safe(s)
    ensures Safe(Apply(s, Forget(d)))
  {
    hide Ticketed, Listed, Ordered, Claimed, Held, Watched, Shadowed, Evicted, Working, Routed, Targeted, Sending;
    if At(s, d).Forgetting? {
      ForgetKeeps(s, d);
      QuietCovers(s, Apply(s, Forget(d)));
    }
  }

  lemma BumpSafe(s: State, d: nat, served: string, now: nat)
    requires Safe(s)
    ensures Safe(Apply(s, Bump(d, served, now)))
  {
    hide Ticketed, Listed, Ordered, Claimed, Held, Watched, Shadowed, Evicted, Working, Routed, Targeted, Sending;
    if At(s, d).Reporting? && At(s, d).ok {
      BumpKeeps(s, d, served, now);
      QuietCovers(s, Apply(s, Bump(d, served, now)));
    }
  }

  lemma EvictSafe(s: State, d: nat, k: Key)
    requires Safe(s)
    ensures Safe(Apply(s, Evict(d, k)))
  {
    hide Ticketed, Listed, Ordered, Claimed, Held, Watched, Shadowed, Evicted, Working, Routed, Targeted, Sending;
    if At(s, d).Reporting? && !At(s, d).ok && Evictable(s, d, k) {
      EvictKeeps(s, d, k);
      QuietCovers(s, Apply(s, Evict(d, k)));
    }
  }

  lemma KeepRecordSafe(s: State, d: nat)
    requires Safe(s)
    ensures Safe(Apply(s, KeepRecord(d)))
  {
    hide Ticketed, Listed, Ordered, Claimed, Held, Watched, Shadowed, Evicted, Working, Routed, Targeted, Sending;
    if At(s, d).Reporting? && !At(s, d).ok && (forall k | k in s.active :: !Evictable(s, d, k)) {
      QuitKeeps(s, d);
      QuietCovers(s, Apply(s, KeepRecord(d)));
    }
  }

  lemma DrainSafe(s: State, d: nat)
    requires Safe(s)
    ensures Safe(Apply(s, Drain(d)))
  {
    hide Ticketed, Ordered, Claimed, Watched, Shadowed, Evicted, Routed, Targeted, Sending;
    if At(s, d).Draining? {
      DrainKeeps(s, d);
      DrainLines(s, d);
      QuietCovers(s, DoDrain(s, d));
    }
  }

  lemma ScanSafe(s: State, d: nat)
    requires Safe(s)
    ensures Safe(Apply(s, Scan(d)))
  {
    hide Ticketed, Listed, Ordered, Claimed, Held, Watched, Shadowed, Evicted, Working, Routed, Targeted, Sending;
    if At(s, d).Scanning? {
      ScanKeeps(s, d);
      QuietCovers(s, Apply(s, Scan(d)));
    }
  }

  lemma SeizeSafe(s: State, d: nat)
    requires Safe(s)
    ensures Safe(Apply(s, Seize(d)))
  {
    hide Ticketed, Listed, Ordered, Claimed, Held, Watched, Shadowed, Evicted, Working, Routed, Targeted, Sending;
    if At(s, d).Seizing? {
      SeizeKeeps(s, d);
      QuietCovers(s, Apply(s, Seize(d)));
    }
  }

  lemma EraseSafe(s: State, d: nat)
    requires Safe(s)
    ensures Safe(Apply(s, Erase(d)))
  {
    hide Ticketed, Listed, Ordered, Claimed, Held, Watched, Shadowed, Evicted, Working, Routed, Targeted, Sending;
    if At(s, d).Erasing? {
      EraseKeeps(s, d);
      QuietCovers(s, Apply(s, Erase(d)));
    }
  }

  lemma FailSafe(s: State, d: nat, c: nat)
    requires Safe(s)
    ensures Safe(Apply(s, Fail(d, c)))
  {
    hide Ticketed, Ordered, Claimed, Watched, Shadowed, Evicted, Routed, Targeted, Sending;
    if At(s, d).Failing? {
      if At(s, d).guards == {} {
        QuitKeeps(s, d);
        QuietCovers(s, Quit(s, d));
      } else if c in At(s, d).guards {
        FailedKeeps(s, d, c);
        QuietCovers(s, Failed(s, d, c));
      }
    }
  }

  lemma ReceiveSafe(s: State, c: nat)
    requires Safe(s)
    ensures Safe(Apply(s, Receive(c)))
  {
    hide Ticketed, Listed, Ordered, Claimed, Held, Watched, Shadowed, Evicted, Working, Routed, Targeted, Sending;
    if In(s, c, Returned) {
      ReceiveKeeps(s, c);
      QuietCovers(s, Apply(s, Receive(c)));
    }
  }

  lemma DropReceiverSafe(s: State, c: nat)
    requires Safe(s)
    ensures Safe(Apply(s, DropReceiver(c)))
  {
    hide Ticketed, Listed, Ordered, Claimed, Held, Watched, Shadowed, Evicted, Working, Routed, Targeted, Sending;
    if In(s, c, Returned) {
      DropReceiverKeeps(s, c);
      QuietCovers(s, Apply(s, DropReceiver(c)));
    }
  }

  /** Every step, whoever takes it. */
  lemma StepSafe(s: State, step: Step)
    requires Safe(s)
    ensures Safe(Apply(s, step))
  {
    hide Guarded, Lined, Covered;
    match step
    case Begin(ask) => BeginSafe(s, ask);
    case Resolve(c, now) => ResolveSafe(s, c, now);
    case Create(c, ok, name) => CreateSafe(s, c, ok, name);
    case Record(c, now) => RecordSafe(s, c, now);
    case Open(c) => OpenSafe(s, c);
    case Shadow(c) => ShadowSafe(s, c);
    case Enqueue(c) => EnqueueSafe(s, c);
    case Check(c) => CheckSafe(s, c);
    case Withdraw(c) => WithdrawSafe(s, c);
    case Unshadow(c) => UnshadowSafe(s, c);
    case TakeBack(c) => TakeBackSafe(s, c);
    case DropBack(c) => DropBackSafe(s, c);
    case Spawn(c) => SpawnSafe(s, c);
    case Claim(d, k) => ClaimSafe(s, d, k);
    case FindNone(d) => FindNoneSafe(s, d);
    case Take(d) => TakeSafe(s, d);
    case Forward(d, f) => ForwardSafe(s, d, f);
    case Hangup(d) => HangupSafe(s, d);
    case Forget(d) => ForgetSafe(s, d);
    case Bump(d, served, now) => BumpSafe(s, d, served, now);
    case Evict(d, k) => EvictSafe(s, d, k);
    case KeepRecord(d) => KeepRecordSafe(s, d);
    case Drain(d) => DrainSafe(s, d);
    case Scan(d) => ScanSafe(s, d);
    case Seize(d) => SeizeSafe(s, d);
    case Erase(d) => EraseSafe(s, d);
    case Fail(d, c) => FailSafe(s, d, c);
    case Receive(c) => ReceiveSafe(s, c);
    case DropReceiver(c) => DropReceiverSafe(s, c);
  }

  lemma EmptySafe()
    ensures Safe(EMPTY)
  {
    forall j: nat ensures CoveredFor(EMPTY, j) {
      assert Waiting([], [], j) == {};
    }
  }

  lemma {:induction false} EveryRunSafe(steps: seq<Step>)
    ensures Safe(Run(EMPTY, steps))
    decreases |steps|
  {
    hide Guarded, Lined, Covered;
    if steps == [] {
      EmptySafe();
    } else {
      EveryRunSafe(steps[..|steps| - 1]);
      StepSafe(Run(EMPTY, steps[..|steps| - 1]), steps[|steps| - 1]);
    }
  }

  lemma StillAligned(steps: seq<Step>)
    ensures Aligned(Run(EMPTY, steps))
  {
    hide Phased, Targeted, Routed, Working, Held, Shadowed, Watched, Evicted, Sending, Lined, Covered;
    EveryRunSafe(steps);
  }

  lemma {:induction false} RunJoin(s: State, a: seq<Step>, b: seq<Step>)
    ensures Run(s, a + b) == Run(Run(s, a), b)
    decreases |b|
  {
    if b == [] {
      assert a + b == a;
    } else {
      assert (a + b)[..|a + b| - 1] == a + b[..|b| - 1];
      RunJoin(s, a, b[..|b| - 1]);
    }
  }

  lemma RunOne(s: State, a: Step)
    ensures Run(s, [a]) == Apply(s, a)
  {
    hide Apply;
    assert [a][..0] == [];
  }

  lemma RunTwo(s: State, a: Step, b: Step)
    ensures Run(s, [a, b]) == Apply(Apply(s, a), b)
  {
    hide Apply;
    assert [a, b][..1] == [a];
    RunOne(s, a);
  }

  lemma RunFour(s: State, a: Step, b: Step, c: Step, d: Step)
    ensures Run(s, [a, b, c, d]) == Apply(Apply(Apply(Apply(s, a), b), c), d)
  {
    hide Apply, Run;
    RunTwo(s, a, b);
    RunTwo(Run(s, [a, b]), c, d);
    RunJoin(s, [a, b], [c, d]);
    assert [a, b] + [c, d] == [a, b, c, d];
  }
}
