/** What every step of the dispatch protocol keeps. */
module DispatchInvariant {
  import opened CallQueue
  import opened Frames
  import opened Dispatch

  // ---- Phases ----

  predicate BeforeOpen(p: Phase) {
    p.Resolving? || p.Creating? || p.Recording? || p.Opening? || p.Refused?
  }

  predicate BeforeQueue(p: Phase) {
    BeforeOpen(p) || p.Shadowing? || p.Enqueuing?
  }

  predicate Backing(p: Phase) {
    p.Unshadowing? || p.TakingBack? || p.DroppingBack? || p.Rejected?
  }

  predicate Untargeted(p: Phase) {
    p.Resolving? || p.Creating? || p.Refused?
  }

  predicate PhaseFits(phase: Phase, place: Place, holder: Holder) {
    && (place.Outside? <==> BeforeQueue(phase))
    && (place.Withdrawn? <==> Backing(phase))
    && (holder.Nobody? <==> BeforeOpen(phase))
    && (holder.WithBegin? <==> phase.DroppingBack?)
    && (phase.Rejected? ==> !holder.Parked?)
  }

  ghost predicate Phased(phases: seq<Phase>, places: seq<Place>, holders: seq<Holder>) {
    |phases| == |places| == |holders| && forall c | 0 <= c < |phases| :: PhaseFits(phases[c], places[c], holders[c])
  }

  // ---- Routing: a Job's records, drivers and calls all have the key it was created with ----

  predicate TargetFits(jobs: map<nat, Key>, c: nat, ask: Ask, phase: Phase, target: Target) {
    && (target.Unknown? <==> Untargeted(phase))
    && (target.Job? ==> target.id in jobs && jobs[target.id] == ask.key)
    && (phase.Recording? ==> target.Job? && target.id == c)
    && (phase.Resolving? || phase.Creating? ==> c !in jobs)
  }

  ghost predicate Targeted(asks: seq<Ask>, phases: seq<Phase>, targets: seq<Target>, jobs: map<nat, Key>) {
    && |asks| == |phases| == |targets|
    && (forall j | j in jobs :: j < |asks|)
    && (forall c | 0 <= c < |asks| :: TargetFits(jobs, c, asks[c], phases[c], targets[c]))
  }

  ghost predicate Routed(jobs: map<nat, Key>, active: map<Key, ActiveJob>, drivers: seq<Driver>) {
    && (forall k | k in active :: active[k].id in jobs && jobs[active[k].id] == k)
    && (forall d | 0 <= d < |drivers| :: drivers[d].job in jobs && jobs[drivers[d].job].tool == drivers[d].tool)
  }

  // ---- The queue holds exactly the queued calls, in the order they came ----

  ghost predicate Ticketed(places: seq<Place>, tickets: seq<nat>, clock: nat) {
    |places| == |tickets| && forall c | 0 <= c < |places| && !places[c].Outside? :: tickets[c] < clock
  }

  predicate Enqueued(asks: seq<Ask>, targets: seq<Target>, pending: Buckets, c: nat)
    requires c < |asks| && c < |targets|
  {
    EntryOf(asks, targets, c) in Bucket(pending, asks[c].key)
  }

  predicate EntryFits(asks: seq<Ask>, targets: seq<Target>, places: seq<Place>, k: Key, e: Pending) {
    && e.call < |asks| && e.call < |targets| && e.call < |places|
    && e == EntryOf(asks, targets, e.call) && e.key == k && places[e.call].Queued?
  }

  ghost predicate Listed(asks: seq<Ask>, targets: seq<Target>, places: seq<Place>, pending: Buckets) {
    && |asks| == |targets| == |places|
    && (forall c | 0 <= c < |places| && places[c].Queued? :: Enqueued(asks, targets, pending, c))
    && (forall k, i | k in pending && 0 <= i < |pending[k]| :: EntryFits(asks, targets, places, k, pending[k][i]))
  }

  ghost predicate InOrder(tickets: seq<nat>, q: seq<Pending>) {
    && (forall i | 0 <= i < |q| :: q[i].call < |tickets|)
    && (forall i, j | 0 <= i < j < |q| :: tickets[q[i].call] < tickets[q[j].call])
  }

  ghost predicate Ordered(tickets: seq<nat>, pending: Buckets) {
    forall k | k in pending :: InOrder(tickets, pending[k])
  }

  // ---- Claims go in the order of arrival ----

  ghost predicate Claimed(targets: seq<Target>, places: seq<Place>, tickets: seq<nat>, claims: seq<nat>) {
    && |targets| == |places| == |tickets|
    && (forall i | 0 <= i < |claims| :: claims[i] < |places| && places[claims[i]].ClaimedBy?)
    && (forall i, c | 0 <= i < |claims| && 0 <= c < |places| && places[c].Queued? ::
          TargetId(targets[c]) == TargetId(targets[claims[i]]) ==> tickets[claims[i]] < tickets[c])
    && (forall i, j | 0 <= i < j < |claims| ::
          TargetId(targets[claims[i]]) == TargetId(targets[claims[j]]) ==> tickets[claims[i]] < tickets[claims[j]])
  }

  predicate WorkFits(targets: seq<Target>, places: seq<Place>, d: nat, job: nat, c: nat) {
    c < |targets| && c < |places| && places[c] == ClaimedBy(d) && targets[c].Job? && targets[c].id == job
  }

  ghost predicate Working(targets: seq<Target>, places: seq<Place>, drivers: seq<Driver>, stages: seq<Stage>) {
    && |drivers| == |stages|
    && forall d | 0 <= d < |stages| && (stages[d].Taking? || stages[d].Dialling? || stages[d].Forgetting?) ::
         WorkFits(targets, places, d, drivers[d].job, stages[d].call)
  }

  // ---- Each guard has one holder ----

  predicate Holds(g: Stage, c: nat) {
    match g
    case Dialling(call) => call == c
    case Erasing(_, guards) => c in guards
    case Failing(guards) => c in guards
    case _ => false
  }

  predicate HeldBy(stages: seq<Stage>, d: nat, c: nat) {
    d < |stages| && Holds(stages[d], c)
  }

  ghost predicate Holding(holders: seq<Holder>, d: nat, g: Stage) {
    && (g.Dialling? ==> g.call < |holders| && holders[g.call] == WithDriver(d))
    && (g.Forgetting? ==> g.call < |holders| && holders[g.call] == Discharged)
    && (g.Erasing? || g.Failing? ==> forall c | c in g.guards :: c < |holders| && holders[c] == WithDriver(d))
  }

  ghost predicate Held(holders: seq<Holder>, parked: set<nat>, stages: seq<Stage>) {
    && (forall c | c in parked :: c < |holders| && holders[c].Parked?)
    && (forall c | 0 <= c < |holders| && holders[c].Parked? :: c in parked)
    && (forall c | 0 <= c < |holders| && holders[c].WithDriver? :: HeldBy(stages, holders[c].d, c))
    && (forall d | 0 <= d < |stages| :: Holding(holders, d, stages[d]))
  }

  // ---- A parked guard has someone on the way to it ----

  ghost predicate Shadowed(asks: seq<Ask>, holders: seq<Holder>, shadow: map<nat, string>) {
    |asks| == |holders| && forall c | c in shadow :: c < |asks| && shadow[c] == asks[c].key.tool && !holders[c].Nobody?
  }

  ghost predicate Seizable(holders: seq<Holder>, g: Stage) {
    && (g.Seizing? || g.Erasing? ==> forall c | c in g.ids :: c < |holders| && !holders[c].Nobody?)
    && (g.Erasing? ==> forall c | c in g.ids :: c < |holders| && !holders[c].Parked?)
  }

  function StageOf(stages: seq<Stage>, p: Place): Stage {
    if (p.ClaimedBy? || p.EvictedBy?) && p.d < |stages| then stages[p.d] else Done
  }

  predicate Owed(c: nat, phase: Phase, place: Place, shadowed: bool, via: Stage) {
    match place
    case Outside => phase.Shadowing? || shadowed
    case Queued => shadowed
    case Withdrawn => true
    case ClaimedBy(_) => via == Taking(c)
    case EvictedBy(_) => if via.Scanning? then shadowed else via.Seizing? && c in via.ids
  }

  ghost predicate Watched(phases: seq<Phase>, places: seq<Place>, holders: seq<Holder>, shadow: map<nat, string>, stages: seq<Stage>) {
    && |phases| == |places| == |holders|
    && (forall d | 0 <= d < |stages| :: Seizable(holders, stages[d]))
    && (forall c | 0 <= c < |holders| && holders[c].Parked? ::
          Owed(c, phases[c], places[c], c in shadow, StageOf(stages, places[c])))
  }

  ghost predicate Evicted(asks: seq<Ask>, places: seq<Place>, drivers: seq<Driver>) {
    && |asks| == |places|
    && forall c | 0 <= c < |places| && places[c].EvictedBy? ::
         places[c].d < |drivers| && drivers[places[c].d].tool == asks[c].key.tool
  }

  // ---- Channels ----

  predicate Ended(ch: Chan) {
    match ch.loss
    case Kept => ch.sent != [] && WellTerminated(ch.sent) && IsTerminal(ch.sent[|ch.sent| - 1])
    case BufferFull(taken) => NoTerminal(ch.sent) && |ch.sent| == taken + CAPACITY
    case ReceiverGone => NoTerminal(ch.sent) && !ch.open
  }

  predicate Running(ch: Chan) {
    NoTerminal(ch.sent) && ch.loss.Kept?
  }

  predicate Bounded(ch: Chan) {
    ch.taken <= |ch.sent| <= ch.taken + CAPACITY
  }

  ghost predicate Sending(holders: seq<Holder>, chans: seq<Chan>) {
    && |holders| == |chans|
    && (forall c | 0 <= c < |chans| :: Bounded(chans[c]))
    && (forall c | 0 <= c < |chans| :: if holders[c].Discharged? then Ended(chans[c]) else Running(chans[c]))
  }

  /** The queue's half. */
  ghost predicate Lined(s: State) {
    && Ticketed(s.places, s.tickets, s.clock)
    && Listed(s.asks, s.targets, s.places, s.pending)
    && Ordered(s.tickets, s.pending)
    && Claimed(s.targets, s.places, s.tickets, s.claims)
  }

  /** The guards' half. */
  ghost predicate Guarded(s: State) {
    && Aligned(s)
    && Phased(s.phases, s.places, s.holders)
    && Targeted(s.asks, s.phases, s.targets, s.jobs)
    && Routed(s.jobs, s.active, s.drivers)
    && Working(s.targets, s.places, s.drivers, s.stages)
    && Held(s.holders, s.parked, s.stages)
    && Shadowed(s.asks, s.holders, s.shadow)
    && Watched(s.phases, s.places, s.holders, s.shadow, s.stages)
    && Evicted(s.asks, s.places, s.drivers)
    && Sending(s.holders, s.chans)
  }

  lemma ResolveKeeps(s: State, c: nat, now: nat)
    requires Guarded(s) && In(s, c, Resolving)
    ensures Guarded(DoResolve(s, c, now))
  {
    hide Held, Shadowed, Evicted, Sending;
  }

  lemma CreateKeeps(s: State, c: nat, ok: bool, name: string)
    requires Guarded(s) && In(s, c, Creating)
    ensures Guarded(DoCreate(s, c, ok, name))
  {
    hide Held, Shadowed, Evicted, Sending;
  }

  lemma RecordKeeps(s: State, c: nat, now: nat)
    requires Guarded(s) && In(s, c, Recording)
    ensures Guarded(DoRecord(s, c, now))
  {
    hide Held, Shadowed, Evicted, Sending, Working;
  }

  lemma OpenKeeps(s: State, c: nat)
    requires Guarded(s) && In(s, c, Opening)
    ensures Guarded(DoOpen(s, c))
  {
    hide Routed, Working, Evicted;
  }

  lemma ShadowKeeps(s: State, c: nat)
    requires Guarded(s) && In(s, c, Shadowing)
    ensures Guarded(DoShadow(s, c))
  {
    hide Routed, Working, Held, Evicted, Sending;
  }

  lemma EnqueueKeeps(s: State, c: nat)
    requires Guarded(s) && In(s, c, Enqueuing)
    ensures Guarded(DoEnqueue(s, c))
  {
    hide Routed, Held, Shadowed, Sending;
  }

  lemma CheckKeeps(s: State, c: nat)
    requires Guarded(s) && In(s, c, Checking)
    ensures Guarded(DoCheck(s, c))
  {
    hide Routed, Working, Held, Shadowed, Evicted, Sending;
  }

  lemma TakenOutKeeps(s: State, c: nat)
    requires Guarded(s) && In(s, c, Withdrawing) && s.places[c].Queued?
    ensures Guarded(TakenOut(s, c))
  {
    hide Routed, Held, Shadowed, Sending;
  }

  lemma MissedKeeps(s: State, c: nat)
    requires Guarded(s) && In(s, c, Withdrawing)
    ensures Guarded(s.(phases := s.phases[c := Spawning]))
  {
    hide Routed, Working, Held, Shadowed, Evicted, Sending;
  }

  lemma UnshadowKeeps(s: State, c: nat)
    requires Guarded(s) && In(s, c, Unshadowing)
    ensures Guarded(DoUnshadow(s, c))
  {
    hide Routed, Working, Held, Evicted, Sending;
  }

  lemma DropBackKeeps(s: State, c: nat)
    requires Guarded(s) && In(s, c, DroppingBack)
    ensures Guarded(DoDropBack(s, c))
  {
    hide Routed, Working, Evicted;
  }

  lemma SpawnKeeps(s: State, c: nat)
    requires Guarded(s) && In(s, c, Spawning)
    ensures Guarded(DoSpawn(s, c))
  {
    hide Shadowed, Sending;
  }

  lemma ReceiveKeeps(s: State, c: nat)
    requires Guarded(s) && In(s, c, Returned)
    ensures Guarded(DoReceive(s, c))
  {
    hide Phased, Targeted, Routed, Working, Held, Shadowed, Watched, Evicted;
  }

  lemma DropReceiverKeeps(s: State, c: nat)
    requires Guarded(s) && In(s, c, Returned)
    ensures Guarded(DoDropReceiver(s, c))
  {
    hide Phased, Targeted, Routed, Working, Held, Shadowed, Watched, Evicted;
  }

  lemma ForgetKeeps(s: State, d: nat)
    requires Guarded(s) && At(s, d).Forgetting?
    ensures Guarded(DoForget(s, d))
  {
    hide Phased, Targeted, Routed, Evicted, Sending;
  }

  lemma BumpKeeps(s: State, d: nat, served: string, now: nat)
    requires Guarded(s) && At(s, d).Reporting?
    ensures Guarded(DoBump(s, d, served, now))
  {
    hide Phased, Targeted, Shadowed, Evicted, Sending;
  }

  lemma EvictKeeps(s: State, d: nat, k: Key)
    requires Guarded(s) && At(s, d).Reporting? && Evictable(s, d, k)
    ensures Guarded(DoEvict(s, d, k))
  {
    hide Phased, Targeted, Shadowed, Evicted, Sending;
  }

  lemma ClaimKeeps(s: State, d: nat, k: Key)
    requires Guarded(s) && CanClaim(s, d, k)
    requires var c := s.pending[k][Position(s.pending[k], s.drivers[d].job)].call;
             s.places[c].Queued? && s.targets[c].Job? && s.targets[c].id == s.drivers[d].job
    ensures Guarded(DoClaim(s, d, k))
  {
    hide Routed, Shadowed, Sending;
  }

  lemma DrainKeeps(s: State, d: nat)
    requires Guarded(s) && At(s, d).Draining? && Listed(s.asks, s.targets, s.places, s.pending)
    ensures Guarded(DoDrain(s, d))
  {
    hide Routed, Shadowed, Sending;
  }

  lemma ScanKeeps(s: State, d: nat)
    requires Guarded(s) && At(s, d).Scanning?
    ensures Guarded(DoScan(s, d))
  {
    hide Phased, Targeted, Routed, Sending;
  }

  lemma SeizeKeeps(s: State, d: nat)
    requires Guarded(s) && At(s, d).Seizing?
    ensures Guarded(DoSeize(s, d))
  {
    hide Targeted, Routed, Evicted;
  }

  lemma EraseKeeps(s: State, d: nat)
    requires Guarded(s) && At(s, d).Erasing?
    ensures Guarded(DoErase(s, d))
  {
    hide Phased, Targeted, Routed, Evicted, Sending;
  }

  lemma TakenBackKeeps(s: State, c: nat)
    requires Guarded(s) && In(s, c, TakingBack) && c in s.parked
    ensures Guarded(TakenBack(s, c))
  {
    hide Routed, Working, Evicted;
  }

  lemma TakenAlreadyKeeps(s: State, c: nat)
    requires Guarded(s) && In(s, c, TakingBack) && c !in s.parked
    ensures Guarded(TakenAlready(s, c))
  {
    hide Routed, Working, Shadowed, Evicted;
  }

  lemma TakenOverKeeps(s: State, d: nat, c: nat)
    requires Guarded(s) && At(s, d) == Taking(c) && c in s.parked
    ensures Row(s, c) && Guarded(TakenOver(s, d, c))
  {
    hide Targeted, Routed, Evicted;
  }

  lemma ForwardKeeps(s: State, d: nat, f: Frame)
    requires Guarded(s) && CanForward(s, d) && !IsTerminal(f)
    ensures Guarded(DoForward(s, d, f))
  {
    hide Phased, Targeted, Routed, Working, Shadowed, Watched, Evicted;
  }

  lemma FinishedKeeps(s: State, d: nat, c: nat, ch: Chan, ok: bool)
    requires Guarded(s) && At(s, d) == Dialling(c) && Row(s, c) && Ended(ch) && Bounded(ch)
    ensures Guarded(Finished(s, d, c, ch, ok))
  {
    hide Targeted, Routed, Evicted;
  }

  lemma FailedKeeps(s: State, d: nat, c: nat)
    requires Guarded(s) && At(s, d).Failing? && c in At(s, d).guards
    ensures Row(s, c) && Guarded(Failed(s, d, c))
  {
    hide Targeted, Routed, Evicted;
    FailEnds(s.chans[c]);
  }

  lemma FailEnds(ch: Chan)
    requires Running(ch) && Bounded(ch)
    ensures Ended(TryFail(ch)) && Bounded(TryFail(ch))
  {
  }

  lemma BeginKeeps(s: State, ask: Ask)
    requires Guarded(s)
    ensures Guarded(DoBegin(s, ask))
  {
    hide Routed;
  }

  predicate MayQuit(s: State, d: nat) {
    match At(s, d)
    case Claiming => true
    case Taking(c) => c !in s.parked
    case Reporting(_) => true
    case Failing(guards) => guards == {}
    case _ => false
  }

  lemma QuitKeeps(s: State, d: nat)
    requires Guarded(s) && MayQuit(s, d)
    ensures Guarded(Quit(s, d))
  {
    hide Phased, Targeted, Routed, Shadowed, Evicted, Sending;
  }
}
