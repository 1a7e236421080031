/** The tool-call dispatch protocol, one step for each critical section. Every `begin_call`,
    dial driver, cancel and receiver may be interleaved with every other between its steps. */
module Dispatch {
  import opened CallQueue
  import opened Frames

  const CAPACITY: nat := 64
  const ATTACH_MARGIN: nat := 60
  const KEEPALIVE_IDLE: nat := 600

  // ---- Result channels ----

  /** Why a terminal is not among the sent frames. A full buffer had received `taken` frames. */
  datatype Loss = Kept | BufferFull(taken: nat) | ReceiverGone

  /** A bounded channel: every frame ever put in it, and how many the receiver took. */
  datatype Chan = Chan(sent: seq<Frame>, taken: nat, open: bool, loss: Loss)

  const NO_FRAMES: Chan := Chan([], 0, true, Kept)

  predicate HasRoom(ch: Chan) {
    |ch.sent| < ch.taken + CAPACITY
  }

  /** The guard's last act: `try_send` of the synthetic terminal. */
  function TryFail(ch: Chan): Chan {
    if !ch.open then ch.(loss := ReceiverGone)
    else if !HasRoom(ch) then ch.(loss := BufferFull(ch.taken))
    else ch.(sent := ch.sent + [FAILED_TERMINAL])
  }

  /** A `send` that has got through: into the buffer, or nowhere when nobody can receive. */
  function Sent(ch: Chan, f: Frame): Chan {
    if ch.open then ch.(sent := ch.sent + [f])
    else if IsTerminal(f) then ch.(loss := ReceiverGone)
    else ch
  }

  // ---- Calls and drivers ----

  /** Where a `begin_call` stands, named after what it does next. */
  datatype Phase =
    | Resolving | Creating | Recording | Opening | Shadowing | Enqueuing
    | Checking | Withdrawing | Unshadowing | TakingBack | DroppingBack | Spawning
    | Returned | Refused | Rejected

  /** A call and the queue: not there yet, there, or how it left. */
  datatype Place = Outside | Queued | ClaimedBy(d: nat) | Withdrawn | EvictedBy(d: nat)

  /** Who owes the call's terminal. */
  datatype Holder = Nobody | Parked | WithBegin | WithDriver(d: nat) | Discharged

  /** What a `begin_call` was asked. */
  datatype Ask = Ask(key: Key, args: string, keepalive: bool)

  /** The Job a call was admitted against. */
  datatype Target = Unknown | Job(id: nat, name: string)

  /** A driver dials one Job for one tool. */
  datatype Driver = Driver(tool: string, job: nat, name: string)

  /** Where a dial driver stands, named after what it does next. */
  datatype Stage =
    | Claiming
    | Taking(call: nat)
    | Dialling(call: nat)
    | Forgetting(call: nat, ok: bool)
    | Reporting(ok: bool)
    | Draining
    | Scanning
    | Seizing(ids: set<nat>)
    | Erasing(ids: set<nat>, guards: set<nat>)
    | Failing(guards: set<nat>)
    | Done

  datatype ActiveJob = ActiveJob(name: string, id: nat, keepalive: nat, lastActivity: nat)

  /** Whether a warm pod still serves: idle for less than its window minus the margin. */
  predicate Attachable(a: ActiveJob, now: nat) {
    && a.keepalive != 0
    && (if now >= a.lastActivity then now - a.lastActivity else 0) + ATTACH_MARGIN < a.keepalive
  }

  /** The shared maps; a column for each fact about a call, with one row for each call ever begun;
      the same for drivers; and the history of Jobs created, calls enqueued and calls claimed. */
  datatype State = State(
    pending: Buckets, parked: set<nat>, shadow: map<nat, string>, active: map<Key, ActiveJob>,
    asks: seq<Ask>, phases: seq<Phase>, targets: seq<Target>, places: seq<Place>, tickets: seq<nat>,
    holders: seq<Holder>, chans: seq<Chan>,
    drivers: seq<Driver>, stages: seq<Stage>,
    jobs: map<nat, Key>, clock: nat, claims: seq<nat>)

  const EMPTY: State := State(map[], {}, map[], map[], [], [], [], [], [], [], [], [], [], map[], 0, [])

  predicate Row(s: State, c: nat) {
    && c < |s.asks| && c < |s.phases| && c < |s.targets| && c < |s.places| && c < |s.tickets|
    && c < |s.holders| && c < |s.chans|
  }

  predicate Aligned(s: State) {
    && |s.asks| == |s.phases| == |s.targets| == |s.places| == |s.tickets| == |s.holders| == |s.chans|
    && |s.drivers| == |s.stages|
  }

  datatype Step =
    | Begin(ask: Ask)
    | Resolve(c: nat, now: nat)
    | Create(c: nat, ok: bool, name: string)
    | Record(c: nat, now: nat)
    | Open(c: nat)
    | Shadow(c: nat)
    | Enqueue(c: nat)
    | Check(c: nat)
    | Withdraw(c: nat)
    | Unshadow(c: nat)
    | TakeBack(c: nat)
    | DropBack(c: nat)
    | Spawn(c: nat)
    | Claim(d: nat, key: Key)
    | FindNone(d: nat)
    | Take(d: nat)
    | Forward(d: nat, frame: Frame)
    | Hangup(d: nat)
    | Forget(d: nat)
    | Bump(d: nat, served: string, now: nat)
    | Evict(d: nat, key: Key)
    | KeepRecord(d: nat)
    | Drain(d: nat)
    | Scan(d: nat)
    | Seize(d: nat)
    | Erase(d: nat)
    | Fail(d: nat, c: nat)
    | Receive(c: nat)
    | DropReceiver(c: nat)

  // ---- Steps of begin_call ----

  predicate In(s: State, c: nat, phase: Phase) {
    Row(s, c) && s.phases[c] == phase
  }

  function DoBegin(s: State, ask: Ask): State {
    s.(asks := s.asks + [ask], phases := s.phases + [Resolving], targets := s.targets + [Unknown],
       places := s.places + [Outside], tickets := s.tickets + [0], holders := s.holders + [Nobody],
       chans := s.chans + [NO_FRAMES])
  }

  /** Attaches to the key's warm Job, or goes on to create one. */
  function DoResolve(s: State, c: nat, now: nat): State
    requires In(s, c, Resolving)
  {
    var k := s.asks[c].key;
    if k in s.active && Attachable(s.active[k], now) then
      s.(phases := s.phases[c := Opening], targets := s.targets[c := Job(s.active[k].id, s.active[k].name)])
    else s.(phases := s.phases[c := Creating])
  }

  /** The new Job carries the call's own id. */
  function DoCreate(s: State, c: nat, ok: bool, name: string): State
    requires In(s, c, Creating)
  {
    if !ok then s.(phases := s.phases[c := Refused])
    else s.(phases := s.phases[c := Recording], targets := s.targets[c := Job(c, name)], jobs := s.jobs[c := s.asks[c].key])
  }

  function DoRecord(s: State, c: nat, now: nat): State
    requires In(s, c, Recording)
  {
    var name := if s.targets[c].Job? then s.targets[c].name else "";
    var record := ActiveJob(name, c, if s.asks[c].keepalive then KEEPALIVE_IDLE else 0, now);
    s.(phases := s.phases[c := Opening], active := s.active[s.asks[c].key := record])
  }

  function DoOpen(s: State, c: nat): State
    requires In(s, c, Opening)
  {
    s.(phases := s.phases[c := Shadowing], holders := s.holders[c := Parked], parked := s.parked + {c})
  }

  function DoShadow(s: State, c: nat): State
    requires In(s, c, Shadowing)
  {
    s.(phases := s.phases[c := Enqueuing], shadow := s.shadow[c := s.asks[c].key.tool])
  }

  function TargetId(t: Target): nat {
    if t.Job? then t.id else 0
  }

  function EntryOf(asks: seq<Ask>, targets: seq<Target>, c: nat): Pending
    requires c < |asks| && c < |targets|
  {
    Pending(c, asks[c].key, asks[c].args, TargetId(targets[c]))
  }

  function DoEnqueue(s: State, c: nat): State
    requires In(s, c, Enqueuing)
  {
    s.(phases := s.phases[c := Checking], places := s.places[c := Queued], tickets := s.tickets[c := s.clock],
       clock := s.clock + 1, pending := Pushed(s.pending, EntryOf(s.asks, s.targets, c)))
  }

  /** The call goes on only if its Job is still the key's record. */
  function DoCheck(s: State, c: nat): State
    requires In(s, c, Checking)
  {
    var k := s.asks[c].key;
    var current := k in s.active && s.active[k].id == TargetId(s.targets[c]);
    s.(phases := s.phases[c := if current then Spawning else Withdrawing])
  }

  /** Withdraws the call if it is still queued; otherwise someone else has it. */
  function DoWithdraw(s: State, c: nat): State
    requires In(s, c, Withdrawing)
  {
    if Names(Bucket(s.pending, s.asks[c].key), c) then TakenOut(s, c) else s.(phases := s.phases[c := Spawning])
  }

  function TakenOut(s: State, c: nat): State
    requires In(s, c, Withdrawing)
  {
    var k := s.asks[c].key;
    s.(phases := s.phases[c := Unshadowing], places := s.places[c := Withdrawn],
       pending := s.pending[k := Without(Bucket(s.pending, k), c)])
  }

  function DoUnshadow(s: State, c: nat): State
    requires In(s, c, Unshadowing)
  {
    s.(phases := s.phases[c := TakingBack], shadow := s.shadow - {c})
  }

  /** Returning an error also drops the receiver. */
  function DoTakeBack(s: State, c: nat): State
    requires In(s, c, TakingBack)
  {
    if c in s.parked then TakenBack(s, c) else TakenAlready(s, c)
  }

  function TakenBack(s: State, c: nat): State
    requires In(s, c, TakingBack)
  {
    s.(phases := s.phases[c := DroppingBack], holders := s.holders[c := WithBegin], parked := s.parked - {c})
  }

  function TakenAlready(s: State, c: nat): State
    requires In(s, c, TakingBack)
  {
    s.(phases := s.phases[c := Rejected], chans := s.chans[c := s.chans[c].(open := false)])
  }

  function DoDropBack(s: State, c: nat): State
    requires In(s, c, DroppingBack)
  {
    s.(phases := s.phases[c := Rejected], holders := s.holders[c := Discharged],
       chans := s.chans[c := TryFail(s.chans[c]).(open := false)])
  }

  function DoSpawn(s: State, c: nat): State
    requires In(s, c, Spawning)
  {
    var name := if s.targets[c].Job? then s.targets[c].name else "";
    s.(phases := s.phases[c := Returned], stages := s.stages + [Claiming],
       drivers := s.drivers + [Driver(s.asks[c].key.tool, TargetId(s.targets[c]), name)])
  }

  // ---- Steps of a dial driver ----

  function At(s: State, d: nat): Stage {
    if d < |s.drivers| && d < |s.stages| then s.stages[d] else Done
  }

  function Quit(s: State, d: nat): State
    requires d < |s.stages|
  {
    s.(stages := s.stages[d := Done])
  }

  predicate CanClaim(s: State, d: nat, key: Key) {
    && At(s, d).Claiming?
    && key in s.pending && key.tool == s.drivers[d].tool && Aimed(s.pending[key], s.drivers[d].job)
    && Row(s, s.pending[key][Position(s.pending[key], s.drivers[d].job)].call)
  }

  /** The buckets are scanned in no fixed order, so any bucket with a match may be the one. */
  function DoClaim(s: State, d: nat, key: Key): State
    requires CanClaim(s, d, key)
  {
    var q := s.pending[key];
    var i := Position(q, s.drivers[d].job);
    var c := q[i].call;
    s.(pending := s.pending[key := Removed(q, i)], places := s.places[c := ClaimedBy(d)],
       stages := s.stages[d := Taking(c)], claims := s.claims + [c])
  }

  predicate NothingToClaim(s: State, d: nat) {
    && At(s, d).Claiming?
    && forall k | k in s.pending && k.tool == s.drivers[d].tool :: !Aimed(s.pending[k], s.drivers[d].job)
  }

  /** Takes the guard over, unless a retirement has it. */
  function DoTake(s: State, d: nat): State
    requires At(s, d).Taking? && Row(s, At(s, d).call)
  {
    var c := At(s, d).call;
    if c in s.parked then TakenOver(s, d, c) else Quit(s, d)
  }

  function TakenOver(s: State, d: nat, c: nat): State
    requires At(s, d) == Taking(c) && Row(s, c)
  {
    s.(parked := s.parked - {c}, holders := s.holders[c := WithDriver(d)], stages := s.stages[d := Dialling(c)])
  }

  predicate CanForward(s: State, d: nat) {
    && At(s, d).Dialling? && Row(s, At(s, d).call)
    && (!s.chans[At(s, d).call].open || HasRoom(s.chans[At(s, d).call]))
  }

  /** The pod's next frame goes through; its own terminal ends the run. */
  function DoForward(s: State, d: nat, f: Frame): State
    requires CanForward(s, d)
  {
    var c := At(s, d).call;
    if IsTerminal(f) then Finished(s, d, c, Sent(s.chans[c], f), true)
    else s.(chans := s.chans[c := Sent(s.chans[c], f)])
  }

  /** The driver's guard is gone, and the channel is left as `ch`. */
  function Finished(s: State, d: nat, c: nat, ch: Chan, ok: bool): State
    requires At(s, d) == Dialling(c) && Row(s, c)
  {
    s.(chans := s.chans[c := ch], holders := s.holders[c := Discharged], stages := s.stages[d := Forgetting(c, ok)])
  }

  /** The dial gave up, was cancelled, or the stream ended without a terminal: the guard drops. */
  function DoHangup(s: State, d: nat): State
    requires At(s, d).Dialling? && Row(s, At(s, d).call)
  {
    Finished(s, d, At(s, d).call, TryFail(s.chans[At(s, d).call]), false)
  }

  function DoForget(s: State, d: nat): State
    requires At(s, d).Forgetting?
  {
    s.(shadow := s.shadow - {At(s, d).call}, stages := s.stages[d := Reporting(At(s, d).ok)])
  }

  function Bumped(active: map<Key, ActiveJob>, tool: string, name: string, now: nat): map<Key, ActiveJob> {
    map k | k in active :: if k.tool == tool && active[k].name == name then active[k].(lastActivity := now) else active[k]
  }

  function DoBump(s: State, d: nat, served: string, now: nat): State
    requires At(s, d).Reporting?
  {
    s.(active := Bumped(s.active, served, s.drivers[d].name, now), stages := s.stages[d := Done])
  }

  predicate Evictable(s: State, d: nat, k: Key) {
    d < |s.drivers| && k in s.active && k.tool == s.drivers[d].tool && s.active[k].name == s.drivers[d].name
  }

  /** The record of the Job that never answered goes, and with it every call for its tool. */
  function DoEvict(s: State, d: nat, k: Key): State
    requires At(s, d).Reporting? && Evictable(s, d, k)
  {
    s.(active := s.active - {k}, stages := s.stages[d := Draining])
  }

  function DoDrain(s: State, d: nat): State
    requires At(s, d).Draining?
  {
    var evicted := DrainedCalls(s.pending, s.drivers[d].tool);
    s.(pending := Drained(s.pending, s.drivers[d].tool), stages := s.stages[d := Scanning],
       places := seq(|s.places|, i requires 0 <= i < |s.places| => if i in evicted then EvictedBy(d) else s.places[i]))
  }

  function DoScan(s: State, d: nat): State
    requires At(s, d).Scanning?
  {
    s.(stages := s.stages[d := Seizing(set c | c in s.shadow && s.shadow[c] == s.drivers[d].tool)])
  }

  function DoSeize(s: State, d: nat): State
    requires At(s, d).Seizing?
  {
    var ids := At(s, d).ids;
    s.(parked := s.parked - ids, stages := s.stages[d := Erasing(ids, ids * s.parked)],
       holders := seq(|s.holders|, i requires 0 <= i < |s.holders| =>
         if i in ids && i in s.parked then WithDriver(d) else s.holders[i]))
  }

  function DoErase(s: State, d: nat): State
    requires At(s, d).Erasing?
  {
    s.(shadow := s.shadow - At(s, d).ids, stages := s.stages[d := Failing(At(s, d).guards)])
  }

  /** One of the seized guards drops; when none is left the driver is done. */
  function DoFail(s: State, d: nat, c: nat): State
    requires At(s, d).Failing?
  {
    if At(s, d).guards == {} then Quit(s, d)
    else if c in At(s, d).guards && Row(s, c) then Failed(s, d, c)
    else s
  }

  function Failed(s: State, d: nat, c: nat): State
    requires At(s, d).Failing? && Row(s, c)
  {
    s.(stages := s.stages[d := Failing(At(s, d).guards - {c})], holders := s.holders[c := Discharged],
       chans := s.chans[c := TryFail(s.chans[c])])
  }

  // ---- Steps of the receiver ----

  function DoReceive(s: State, c: nat): State
    requires In(s, c, Returned)
  {
    var ch := s.chans[c];
    if ch.open && ch.taken < |ch.sent| then s.(chans := s.chans[c := ch.(taken := ch.taken + 1)]) else s
  }

  function DoDropReceiver(s: State, c: nat): State
    requires In(s, c, Returned)
  {
    s.(chans := s.chans[c := s.chans[c].(open := false)])
  }

  // ---- Runs ----

  /** A step whose actor is not at that point changes nothing. */
  function Apply(s: State, step: Step): State {
    match step
    case Begin(ask) => DoBegin(s, ask)
    case Resolve(c, now) => if In(s, c, Resolving) then DoResolve(s, c, now) else s
    case Create(c, ok, name) => if In(s, c, Creating) then DoCreate(s, c, ok, name) else s
    case Record(c, now) => if In(s, c, Recording) then DoRecord(s, c, now) else s
    case Open(c) => if In(s, c, Opening) then DoOpen(s, c) else s
    case Shadow(c) => if In(s, c, Shadowing) then DoShadow(s, c) else s
    case Enqueue(c) => if In(s, c, Enqueuing) then DoEnqueue(s, c) else s
    case Check(c) => if In(s, c, Checking) then DoCheck(s, c) else s
    case Withdraw(c) => if In(s, c, Withdrawing) then DoWithdraw(s, c) else s
    case Unshadow(c) => if In(s, c, Unshadowing) then DoUnshadow(s, c) else s
    case TakeBack(c) => if In(s, c, TakingBack) then DoTakeBack(s, c) else s
    case DropBack(c) => if In(s, c, DroppingBack) then DoDropBack(s, c) else s
    case Spawn(c) => if In(s, c, Spawning) then DoSpawn(s, c) else s
    case Claim(d, key) => if CanClaim(s, d, key) then DoClaim(s, d, key) else s
    case FindNone(d) => if NothingToClaim(s, d) then Quit(s, d) else s
    case Take(d) => if At(s, d).Taking? && Row(s, At(s, d).call) then DoTake(s, d) else s
    case Forward(d, f) => if CanForward(s, d) then DoForward(s, d, f) else s
    case Hangup(d) => if At(s, d).Dialling? && Row(s, At(s, d).call) then DoHangup(s, d) else s
    case Forget(d) => if At(s, d).Forgetting? then DoForget(s, d) else s
    case Bump(d, served, now) => if At(s, d).Reporting? && At(s, d).ok then DoBump(s, d, served, now) else s
    case Evict(d, k) => if At(s, d).Reporting? && !At(s, d).ok && Evictable(s, d, k) then DoEvict(s, d, k) else s
    case KeepRecord(d) =>
      if At(s, d).Reporting? && !At(s, d).ok && (forall k | k in s.active :: !Evictable(s, d, k))
      then Quit(s, d) else s
    case Drain(d) => if At(s, d).Draining? then DoDrain(s, d) else s
    case Scan(d) => if At(s, d).Scanning? then DoScan(s, d) else s
    case Seize(d) => if At(s, d).Seizing? then DoSeize(s, d) else s
    case Erase(d) => if At(s, d).Erasing? then DoErase(s, d) else s
    case Fail(d, c) => if At(s, d).Failing? then DoFail(s, d, c) else s
    case Receive(c) => if In(s, c, Returned) then DoReceive(s, c) else s
    case DropReceiver(c) => if In(s, c, Returned) then DoDropReceiver(s, c) else s
  }

  function Run(s: State, steps: seq<Step>): State {
    if steps == [] then s else Apply(Run(s, steps[..|steps| - 1]), steps[|steps| - 1])
  }
}
