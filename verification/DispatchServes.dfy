/** What a call gets when nothing comes between its steps: a driver for the Job its key's warm record
    names, or for a new Job of its own, and in the second case its own frames. */
module DispatchServes {
  import opened Wrappers
  import opened CallQueue
  import opened Frames
  import opened Dispatch
  import opened DispatchInvariant
  import opened DispatchCover
  import opened DispatchRuns
  import opened DispatchTheorems
  import opened DispatchState
  import opened DispatchDial

  /** The pod of a record has not been idle for its whole window at `t`. */
  predicate Serving(a: ActiveJob, t: nat) {
    t < a.lastActivity + a.keepalive
  }

  /** A pod may be attached to exactly when it stays within its idle window for the margin to come. */
  lemma AttachesWarm(a: ActiveJob, now: nat)
    requires a.lastActivity <= now
    ensures Attachable(a, now) <==> forall t: nat | t <= now + ATTACH_MARGIN :: Serving(a, t)
  {
    if forall t: nat | t <= now + ATTACH_MARGIN :: Serving(a, t) {
      assert Serving(a, now + ATTACH_MARGIN);
    }
  }

  predicate Attaches(s: State, key: Key, now: nat) {
    key in s.active && Attachable(s.active[key], now)
  }

  function TargetFor(s: State, ask: Ask, now: nat, name: string): Target {
    if Attaches(s, ask.key, now) then Job(s.active[ask.key].id, s.active[ask.key].name) else Job(|s.phases|, name)
  }

  /** The key's record after the call: kept if attached to, else the new Job's. */
  function RecordFor(s: State, ask: Ask, now: nat, name: string): ActiveJob {
    if Attaches(s, ask.key, now) then s.active[ask.key]
    else ActiveJob(name, |s.phases|, if ask.keepalive then KEEPALIVE_IDLE else 0, now)
  }

  function Admitting(c: nat, ask: Ask, now: nat, name: string): seq<Step> {
    [Begin(ask), Resolve(c, now), Create(c, true, name), Record(c, now)]
  }

  function Publishing(c: nat): seq<Step> {
    [Open(c), Shadow(c), Enqueue(c), Check(c), Spawn(c)]
  }

  lemma RunFive(s: State, a: Step, b: Step, c: Step, d: Step, e: Step)
    ensures Run(s, [a, b, c, d, e]) == Apply(Apply(Apply(Apply(Apply(s, a), b), c), d), e)
  {
    hide Apply;
    assert [a, b, c, d, e][..4] == [a, b, c, d];
    RunFour(s, a, b, c, d);
  }

  ghost predicate Admitted(s: State, t: State, ask: Ask, target: Target, record: ActiveJob) {
    var c := |s.phases|;
    && Aligned(t) && In(t, c, Opening) && |t.phases| == c + 1
    && t.asks == s.asks + [ask] && t.targets == s.targets + [target] && t.chans == s.chans + [NO_FRAMES]
    && t.active == s.active[ask.key := record]
    && t.pending == s.pending && t.drivers == s.drivers && t.stages == s.stages
  }

  lemma AttachStep(s: State, ask: Ask, now: nat)
    requires Aligned(s) && Attaches(s, ask.key, now)
    ensures var record := s.active[ask.key];
            Admitted(s, Apply(DoBegin(s, ask), Resolve(|s.phases|, now)), ask, Job(record.id, record.name), record)
  {
    assert s.active[ask.key := s.active[ask.key]] == s.active;
  }

  lemma ResolveStep(s: State, ask: Ask, now: nat)
    requires Aligned(s) && !Attaches(s, ask.key, now)
    ensures var c, t := |s.phases|, DoBegin(s, ask);
            In(t, c, Resolving) && Apply(t, Resolve(c, now)) == t.(phases := t.phases[c := Creating])
  {
  }

  lemma CreateStep(s: State, c: nat, name: string)
    requires In(s, c, Creating)
    ensures Apply(s, Create(c, true, name)) == DoCreate(s, c, true, name)
    ensures In(DoCreate(s, c, true, name), c, Recording)
  {
  }

  lemma RecordStep(s: State, c: nat, now: nat)
    requires In(s, c, Recording)
    ensures Apply(s, Record(c, now)) == DoRecord(s, c, now)
  {
  }

  lemma CreatedIs(s: State, ask: Ask, now: nat, name: string)
    requires Aligned(s)
    ensures var c, t := |s.phases|, DoBegin(s, ask);
            var u := t.(phases := t.phases[c := Creating]);
            && In(u, c, Creating) && In(DoCreate(u, c, true, name), c, Recording)
            && Admitted(s, DoRecord(DoCreate(u, c, true, name), c, now), ask, Job(c, name),
                        ActiveJob(name, c, if ask.keepalive then KEEPALIVE_IDLE else 0, now))
  {
  }

  lemma Skips(s: State, c: nat, name: string, now: nat)
    requires In(s, c, Opening)
    ensures Apply(Apply(s, Create(c, true, name)), Record(c, now)) == s
  {
  }

  lemma Admits(s: State, ask: Ask, now: nat, name: string)
    requires Aligned(s)
    ensures Admitted(s, Run(s, Admitting(|s.phases|, ask, now, name)), ask, TargetFor(s, ask, now, name), RecordFor(s, ask, now, name))
  {
    var c, t := |s.phases|, DoBegin(s, ask);
    RunFour(s, Begin(ask), Resolve(c, now), Create(c, true, name), Record(c, now));
    assert Apply(s, Begin(ask)) == t;
    if Attaches(s, ask.key, now) {
      AttachStep(s, ask, now);
      Skips(Apply(t, Resolve(c, now)), c, name, now);
    } else {
      ResolveStep(s, ask, now);
      var u := t.(phases := t.phases[c := Creating]);
      CreateStep(u, c, name);
      RecordStep(DoCreate(u, c, true, name), c, now);
      CreatedIs(s, ask, now, name);
    }
  }

  ghost predicate Published(s: State, t: State, c: nat)
    requires Row(s, c) && s.targets[c].Job?
  {
    && Aligned(t) && In(t, c, Returned) && t.places[c].Queued? && c in t.parked
    && t.targets == s.targets && t.asks == s.asks && t.chans == s.chans && t.active == s.active
    && t.pending == Pushed(s.pending, EntryOf(s.asks, s.targets, c))
    && t.stages == s.stages + [Claiming]
    && t.drivers == s.drivers + [Driver(s.asks[c].key.tool, TargetId(s.targets[c]), s.targets[c].name)]
  }

  predicate Current(s: State, c: nat)
    requires Row(s, c)
  {
    s.asks[c].key in s.active && s.active[s.asks[c].key].id == TargetId(s.targets[c])
  }

  lemma OpenSteps(s: State, c: nat)
    requires Aligned(s) && In(s, c, Opening) && Current(s, c)
    ensures var t := Apply(Apply(s, Open(c)), Shadow(c));
            && Aligned(t) && In(t, c, Enqueuing) && Current(t, c) && c in t.parked && t.asks == s.asks && t.targets == s.targets
            && t.chans == s.chans && t.active == s.active && t.pending == s.pending && t.stages == s.stages && t.drivers == s.drivers
  {
  }

  lemma QueueSteps(s: State, c: nat)
    requires Aligned(s) && In(s, c, Enqueuing) && Current(s, c) && c in s.parked && s.targets[c].Job?
    ensures var t := Apply(Apply(s, Enqueue(c)), Check(c));
            && Aligned(t) && In(t, c, Spawning) && c in t.parked && t.places[c].Queued? && t.asks == s.asks && t.targets == s.targets
            && t.chans == s.chans && t.active == s.active && t.stages == s.stages && t.drivers == s.drivers
            && t.pending == Pushed(s.pending, EntryOf(s.asks, s.targets, c))
  {
  }

  lemma SpawnStep(s: State, c: nat)
    requires Aligned(s) && In(s, c, Spawning) && s.targets[c].Job?
    ensures var t := Apply(s, Spawn(c));
            && Aligned(t) && In(t, c, Returned) && t.places == s.places && t.parked == s.parked
            && t.asks == s.asks && t.targets == s.targets && t.chans == s.chans && t.active == s.active && t.pending == s.pending
            && t.stages == s.stages + [Claiming]
            && t.drivers == s.drivers + [Driver(s.asks[c].key.tool, TargetId(s.targets[c]), s.targets[c].name)]
  {
  }

  lemma Publishes(s: State, c: nat)
    requires Aligned(s) && In(s, c, Opening) && s.targets[c].Job? && Current(s, c)
    ensures Published(s, Run(s, Publishing(c)), c)
  {
    hide Apply;
    RunFive(s, Open(c), Shadow(c), Enqueue(c), Check(c), Spawn(c));
    OpenSteps(s, c);
    var t := Apply(Apply(s, Open(c)), Shadow(c));
    QueueSteps(t, c);
    SpawnStep(Apply(Apply(t, Enqueue(c)), Check(c)), c);
  }

  /** From any reachable state an undisturbed call returns, queued and with a driver for its Job: the Job
      of its key's record if that may still be attached to, otherwise a new one, now the key's record. */
  lemma UndisturbedReturns(before: seq<Step>, ask: Ask, now: nat, name: string)
    ensures var s := Run(EMPTY, before);
            var c := |s.phases|;
            var target := TargetFor(s, ask, now, name);
            var t := Run(EMPTY, before + (Admitting(c, ask, now, name) + Publishing(c)));
            && Aligned(t) && In(t, c, Returned) && t.targets[c] == target && t.places[c].Queued? && c in t.parked
            && t.chans == s.chans + [NO_FRAMES]
            && t.drivers == s.drivers + [Driver(ask.key.tool, target.id, target.name)] && t.stages == s.stages + [Claiming]
            && t.active == s.active[ask.key := RecordFor(s, ask, now, name)]
            && Bucket(t.pending, ask.key) == Bucket(s.pending, ask.key) + [Pending(c, ask.key, ask.args, target.id)]
  {
    hide Phased, Targeted, Routed, Working, Held, Shadowed, Watched, Evicted, Sending, Lined, Covered;
    var s := Run(EMPTY, before);
    var c := |s.phases|;
    EveryRunSafe(before);
    Admits(s, ask, now, name);
    var u := Run(s, Admitting(c, ask, now, name));
    Publishes(u, c);
    RunJoin(s, Admitting(c, ask, now, name), Publishing(c));
    RunJoin(EMPTY, before, Admitting(c, ask, now, name) + Publishing(c));
  }

  function ServingSteps(d: nat, c: nat, key: Key, reached: bool, stream: seq<Option<Frame>>): seq<Step> {
    [Claim(d, key), Take(d)] + DialSteps(d, c, reached, stream) + [Forget(d)]
  }

  /** On a Job of its own, that driver then finds just this call, and a receiver that keeps up is sent exactly what the dial
      sends: what the pod says, whatever that is, closed by a failure unless it completed. */
  lemma OwnJobServes(before: seq<Step>, ask: Ask, now: nat, name: string, reached: bool, stream: seq<Option<Frame>>)
    requires !Attaches(Run(EMPTY, before), ask.key, now)
    ensures var s := Run(EMPTY, before);
            var c, d := |s.phases|, |s.stages|;
            var called := before + (Admitting(c, ask, now, name) + Publishing(c));
            var t := Run(EMPTY, called + ServingSteps(d, c, ask.key, reached, stream));
            && c < |t.chans| && t.chans[c].sent == DialSends(reached, stream) && c < |t.places| && t.places[c] == ClaimedBy(d)
            && At(t, d) == Reporting(reached && Completes(stream)) && Bucket(t.pending, ask.key) == Bucket(s.pending, ask.key)
            && c !in t.shadow && c !in t.parked
            && t.active == s.active[ask.key := ActiveJob(name, c, if ask.keepalive then 600 else 0, now)]
            && t.drivers == s.drivers + [Driver(ask.key.tool, c, name)]
  {
    hide Phased, Targeted, Routed, Working, Held, Shadowed, Watched, Evicted, Sending, Lined, Covered;
    hide DialSteps, DialSends, Completes;
    var s := Run(EMPTY, before);
    var c, d, key := |s.phases|, |s.stages|, ask.key;
    var called := before + (Admitting(c, ask, now, name) + Publishing(c));
    var u := Run(EMPTY, called);
    EveryRunSafe(before);
    UndisturbedReturns(before, ask, now, name);
    FreshTarget(s, key, Pending(c, key, ask.args, c));
    ServesOwn(u, c, d, key, reached, stream, |Bucket(s.pending, key)|);
    RunJoin(EMPTY, called, ServingSteps(d, c, key, reached, stream));
  }

  lemma BumpStep(u: State, d: nat, tool: string, at: nat)
    requires At(u, d) == Reporting(true)
    ensures Apply(u, Bump(d, tool, at)).active == Bumped(u.active, tool, u.drivers[d].name, at)
  {
    hide Bumped;
  }

  /** After a completed serve that its driver reports at time `at`, later calls of the key attach to the same warm Job, as long as they
      leave the margin of the idle window counted from `at`. A Job that is not kept alive is never attached to. */
  lemma KeptWarm(before: seq<Step>, ask: Ask, now: nat, name: string, stream: seq<Option<Frame>>, at: nat, later: nat)
    requires !Attaches(Run(EMPTY, before), ask.key, now) && Completes(stream)
    ensures var s := Run(EMPTY, before);
            var c, d := |s.phases|, |s.stages|;
            var called := before + (Admitting(c, ask, now, name) + Publishing(c));
            var t := Run(EMPTY, called + ServingSteps(d, c, ask.key, true, stream) + [Bump(d, ask.key.tool, at)]);
            && ask.key in t.active && t.active[ask.key].id == c && t.active[ask.key].name == name
            && (at <= later ==> (Attaches(t, ask.key, later) <==> ask.keepalive && later + 60 < at + 600))
  {
    hide Completes, DialSends, ServingSteps, Bumped, Apply, Run, Admitting, Publishing;
    var s := Run(EMPTY, before);
    var c, d := |s.phases|, |s.stages|;
    var called := before + (Admitting(c, ask, now, name) + Publishing(c));
    var served := called + ServingSteps(d, c, ask.key, true, stream);
    StillAligned(before);
    OwnJobServes(before, ask, now, name, true, stream);
    BumpStep(Run(EMPTY, served), d, ask.key.tool, at);
    RunOne(Run(EMPTY, served), Bump(d, ask.key.tool, at));
    RunJoin(EMPTY, served, [Bump(d, ask.key.tool, at)]);
    BumpedOne(Run(EMPTY, served).active, ask.key, name, at);
  }

  lemma BumpedOne(active: map<Key, ActiveJob>, k: Key, name: string, at: nat)
    requires k in active && active[k].name == name
    ensures k in Bumped(active, k.tool, name, at) && Bumped(active, k.tool, name, at)[k] == active[k].(lastActivity := at)
  {
  }

  /** Activity on one Job warms no record of another tool or another pod. */
  lemma OthersNotWarmed(active: map<Key, ActiveJob>, tool: string, name: string, at: nat, k: Key)
    requires k in active && (k.tool != tool || active[k].name != name)
    ensures k in Bumped(active, tool, name, at) && Bumped(active, tool, name, at)[k] == active[k]
  {
  }

  lemma ServesOwn(u: State, c: nat, d: nat, key: Key, reached: bool, stream: seq<Option<Frame>>, i: nat)
    requires Aligned(u) && In(u, c, Returned) && At(u, d).Claiming? && u.drivers[d].tool == key.tool && u.drivers[d].job == c
    requires key in u.pending && i == |u.pending[key]| - 1 && Position(u.pending[key], c) == i && u.pending[key][i].call == c
    requires c in u.parked && u.chans[c] == NO_FRAMES
    ensures var t := Run(u, ServingSteps(d, c, key, reached, stream));
            && c < |t.chans| && t.chans[c].sent == DialSends(reached, stream) && c < |t.places| && t.places[c] == ClaimedBy(d)
            && At(t, d) == Reporting(reached && Completes(stream)) && t.pending == u.pending[key := u.pending[key][..i]]
            && t.active == u.active && t.drivers == u.drivers && c !in t.shadow && c !in t.parked
  {
    hide Apply, Run, DialSteps, DialSends, Completes;
    ClaimStep(u, c, d, key, i);
    var v := Apply(u, Claim(d, key));
    TakeStep(v, c, d);
    var w := Apply(v, Take(d));
    RunTwo(u, Claim(d, key), Take(d));
    DialRefines(w, d, c, reached, stream);
    assert [] + DialSends(reached, stream) == DialSends(reached, stream);
    var x := Run(w, DialSteps(d, c, reached, stream));
    RunJoin(u, [Claim(d, key), Take(d)], DialSteps(d, c, reached, stream));
    RunOne(x, Forget(d));
    RunJoin(u, [Claim(d, key), Take(d)] + DialSteps(d, c, reached, stream), [Forget(d)]);
    ForgetStep(x, c, d);
  }

  lemma ClaimStep(u: State, c: nat, d: nat, key: Key, i: nat)
    requires Aligned(u) && Row(u, c) && At(u, d).Claiming? && u.drivers[d].tool == key.tool && u.drivers[d].job == c
    requires key in u.pending && i == |u.pending[key]| - 1 && Position(u.pending[key], c) == i && u.pending[key][i].call == c
    ensures var t := Apply(u, Claim(d, key));
            && Aligned(t) && Row(t, c) && t.phases == u.phases && t.active == u.active && t.drivers == u.drivers
            && At(t, d) == Taking(c) && t.places[c] == ClaimedBy(d) && t.parked == u.parked
            && t.chans == u.chans && t.pending == u.pending[key := u.pending[key][..i]]
  {
    assert Removed(u.pending[key], i) == u.pending[key][..i];
  }

  lemma TakeStep(u: State, c: nat, d: nat)
    requires Aligned(u) && Row(u, c) && At(u, d) == Taking(c) && c in u.parked
    ensures var t := Apply(u, Take(d));
            && Aligned(t) && Row(t, c) && t.phases == u.phases && t.active == u.active && t.drivers == u.drivers
            && c !in t.parked && At(t, d) == Dialling(c) && t.places == u.places
            && t.chans == u.chans && t.pending == u.pending
  {
  }

  lemma ForgetStep(u: State, c: nat, d: nat)
    requires Row(u, c) && At(u, d).Forgetting?
    ensures var t := Apply(u, Forget(d));
            && Row(t, c) && At(t, d) == Reporting(At(u, d).ok) && t.places == u.places && t.chans == u.chans && t.pending == u.pending
            && t.active == u.active && t.drivers == u.drivers && t.shadow == u.shadow - {At(u, d).call} && t.parked == u.parked
  {
  }

  /** Nothing waits yet for a Job that carries the id of a call just begun. */
  lemma FreshTarget(s: State, k: Key, e: Pending)
    requires Safe(s) && e.target == |s.phases|
    ensures Position(Bucket(s.pending, k) + [e], e.target) == |Bucket(s.pending, k)|
  {
    hide Phased, Routed, Working, Held, Shadowed, Watched, Evicted, Sending, Lined, Covered;
    var q := Bucket(s.pending, k);
    forall i | 0 <= i < |q| ensures q[i].target != e.target {
      EntryHome(s, k, i);
    }
    assert forall i | 0 <= i < |q| :: (q + [e])[i] == q[i];
    assert (q + [e])[|q|] == e;
  }

  // ---- A call whose Job was retired under it ----

  function RejectSteps(c: nat): seq<Step> {
    [Check(c), Withdraw(c), Unshadow(c), TakeBack(c), DropBack(c)]
  }

  lemma ChecksOut(s: State, c: nat)
    requires In(s, c, Checking) && !(s.asks[c].key in s.active && s.active[s.asks[c].key].id == TargetId(s.targets[c]))
    ensures Apply(s, Check(c)) == s.(phases := s.phases[c := Withdrawing])
  {
  }

  lemma TakesOut(s: State, c: nat)
    requires In(s, c, Withdrawing) && Names(Bucket(s.pending, s.asks[c].key), c)
    ensures var t := Apply(s, Withdraw(c));
            && In(t, c, Unshadowing) && t.places[c].Withdrawn? && t.parked == s.parked && t.shadow == s.shadow
            && t.drivers == s.drivers && t.chans == s.chans && t.active == s.active
  {
    hide Without;
  }

  lemma GivesBack(s: State, c: nat)
    requires In(s, c, Unshadowing) && c in s.parked && s.places[c].Withdrawn?
    ensures var t := Apply(Apply(Apply(s, Unshadow(c)), TakeBack(c)), DropBack(c));
            && In(t, c, Rejected) && c !in t.shadow && c !in t.parked && t.places[c].Withdrawn?
            && t.drivers == s.drivers && t.active == s.active
            && (s.chans[c].open && |s.chans[c].sent| < s.chans[c].taken + 64 ==> t.chans[c].sent == s.chans[c].sent + [Complete(2, -1)])
            && !t.chans[c].open
  {
  }

  lemma QueuedIsNamed(s: State, c: nat)
    requires Safe(s) && Row(s, c) && s.places[c].Queued?
    ensures Names(Bucket(s.pending, s.asks[c].key), c)
  {
    hide Phased, Targeted, Routed, Working, Held, Shadowed, Watched, Evicted, Sending, Ticketed, Ordered, Claimed, Covered;
    assert Enqueued(s.asks, s.targets, s.pending, c);
    var q := Bucket(s.pending, s.asks[c].key);
    var i :| 0 <= i < |q| && q[i] == EntryOf(s.asks, s.targets, c);
  }

  /** In every run: a call that finds the record of its key gone, or naming another Job, and is still queued, takes itself back. It is
      rejected, waits nowhere, owes nobody anything, and no driver is started for it. */
  lemma RetiredRejected(before: seq<Step>, c: nat)
    requires var s := Run(EMPTY, before);
             && In(s, c, Checking) && s.places[c].Queued? && c in s.parked
             && !(s.asks[c].key in s.active && s.active[s.asks[c].key].id == TargetId(s.targets[c]))
    ensures var s, t := Run(EMPTY, before), Run(EMPTY, before + RejectSteps(c));
            && In(t, c, Rejected) && c !in t.shadow && c !in t.parked && t.drivers == s.drivers && t.active == s.active
            && (forall k | k in t.pending :: !Names(t.pending[k], c))
            && (s.chans[c].open && |s.chans[c].sent| < s.chans[c].taken + 64 ==> t.chans[c].sent == s.chans[c].sent + [Complete(2, -1)])
  {
    hide Apply, Run, Safe, Names;
    var s := Run(EMPTY, before);
    EveryRunSafe(before);
    QueuedIsNamed(s, c);
    RunFive(s, Check(c), Withdraw(c), Unshadow(c), TakeBack(c), DropBack(c));
    ChecksOut(s, c);
    var u := Apply(s, Check(c));
    TakesOut(u, c);
    GivesBack(Apply(u, Withdraw(c)), c);
    RunJoin(EMPTY, before, RejectSteps(c));
    LeftIsGone(before + RejectSteps(c), c);
  }
}
