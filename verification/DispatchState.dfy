/** The shared maps of the harness, with one method for each critical section. Each method is proved to take the maps
    from what the step machine has in one state to what it has after the step of that section. */
module DispatchState {
  import opened Wrappers
  import opened CallQueue
  import opened Frames
  import opened Dispatch
  import opened DispatchRuns

  datatype RecordEviction = Removal | NoRecord | SupersededByAnotherJob

  class DispatchState {
    var pending: Buckets
    var resultTxs: set<nat>
    var callIds: map<nat, string>
    var activeJobs: map<Key, ActiveJob>

    /** The maps are those of this state of the step machine. */
    ghost predicate Shows(s: State)
      reads this
    {
      pending == s.pending && resultTxs == s.parked && callIds == s.shadow && activeJobs == s.active
    }

    constructor ()
      ensures Shows(EMPTY)
    {
      pending, resultTxs, callIds, activeJobs := map[], {}, map[], map[];
    }

    // ---- Call queue ----

    method EnqueueCall(ghost s: State, call: Pending)
      requires Shows(s) && In(s, call.call, Enqueuing) && call == EntryOf(s.asks, s.targets, call.call)
      modifies `pending
      ensures Shows(Apply(s, Enqueue(call.call)))
    {
      var calls := [];
      if call.key in pending {
        calls := pending[call.key];
      }
      pending := pending[call.key := calls + [call]];
    }

    /** Claims the first call admitted against `job`, from whichever of the tool's buckets has one. */
    method DequeueCall(ghost s: State, ghost d: nat, tool: string, job: nat) returns (r: Option<Pending>)
      requires Safe(s) && Shows(s) && At(s, d).Claiming? && s.drivers[d].tool == tool && s.drivers[d].job == job
      modifies `pending
      ensures r.None? ==> Shows(Apply(s, FindNone(d))) && At(Apply(s, FindNone(d)), d).Done?
      ensures r.Some? ==>
                exists k :: CanClaim(s, d, k) && Shows(Apply(s, Claim(d, k))) && At(Apply(s, Claim(d, k)), d) == Taking(r.value.call)
    {
      hide Apply, Safe;
      var keys := pending.Keys;
      while keys != {}
        invariant keys <= pending.Keys && pending == s.pending && Shows(s)
        invariant forall k | k in pending && k.tool == tool && k !in keys :: !Aimed(pending[k], job)
        decreases |keys|
      {
        var k :| k in keys;
        keys := keys - {k};
        if k.tool == tool {
          var i := FindFirst(pending[k], job);
          if i < |pending[k]| {
            EntryRow(s, k, i);
            ClaimIs(s, d, k);
            r := Some(pending[k][i]);
            pending := pending[k := pending[k][..i] + pending[k][i + 1..]];
            assert CanClaim(s, d, k) && Shows(DoClaim(s, d, k));
            return;
          }
        }
      }
      FindNoneIs(s, d);
      r := None;
    }

    static lemma ClaimIs(s: State, d: nat, k: Key)
      requires At(s, d).Claiming? && k in s.pending && k.tool == s.drivers[d].tool && Aimed(s.pending[k], s.drivers[d].job)
      requires Row(s, s.pending[k][Position(s.pending[k], s.drivers[d].job)].call)
      ensures CanClaim(s, d, k) && Apply(s, Claim(d, k)) == DoClaim(s, d, k)
      ensures At(DoClaim(s, d, k), d) == Taking(s.pending[k][Position(s.pending[k], s.drivers[d].job)].call)
    {
      hide DoClaim, Position;
      ClaimTakes(s, d, k);
    }

    static lemma ClaimTakes(s: State, d: nat, k: Key)
      requires CanClaim(s, d, k)
      ensures At(DoClaim(s, d, k), d) == Taking(s.pending[k][Position(s.pending[k], s.drivers[d].job)].call)
    {
    }

    static lemma FindNoneIs(s: State, d: nat)
      requires NothingToClaim(s, d)
      ensures Apply(s, FindNone(d)) == Quit(s, d) && At(Quit(s, d), d).Done?
    {
    }

    static method FindFirst(calls: seq<Pending>, job: nat) returns (i: nat)
      ensures i == Position(calls, job)
    {
      i := 0;
      while i < |calls| && calls[i].target != job
        invariant i <= |calls| && forall k | 0 <= k < i :: calls[k].target != job
      {
        i := i + 1;
      }
    }

    /** Takes one still-queued call out, and tells whether it was there. */
    method RemovePendingCall(ghost s: State, key: Key, call: nat) returns (removed: bool)
      requires Shows(s) && In(s, call, Withdrawing) && s.asks[call].key == key
      modifies `pending
      ensures Shows(Apply(s, Withdraw(call))) && Apply(s, Withdraw(call)).phases[call] == if removed then Unshadowing else Spawning
    {
      if key !in pending {
        return false;
      }
      var calls := pending[key];
      var kept := Retain(calls, call);
      WithoutLength(calls, call);
      pending := pending[key := kept];
      removed := |kept| != |calls|;
    }

    static method Retain(calls: seq<Pending>, call: nat) returns (kept: seq<Pending>)
      ensures kept == Without(calls, call)
    {
      kept := [];
      for i := 0 to |calls|
        invariant Without(calls, call) == kept + Without(calls[i..], call)
      {
        assert calls[i..][1..] == calls[i + 1..];
        if calls[i].call != call {
          kept := kept + [calls[i]];
        }
      }
    }

    static lemma {:induction false} WithoutLength(calls: seq<Pending>, call: nat)
      ensures |Without(calls, call)| <= |calls|
      ensures |Without(calls, call)| < |calls| <==> Names(calls, call)
      ensures !Names(calls, call) ==> Without(calls, call) == calls
      decreases |calls|
    {
      if calls != [] {
        WithoutLength(calls[1..], call);
        assert forall i | 1 <= i < |calls| :: calls[i] == calls[1..][i - 1];
        assert forall i | 0 <= i < |calls[1..]| :: calls[1..][i] == calls[i + 1];
      }
    }

    // ---- Result channels and ownership shadow ----

    method ParkGuard(ghost s: State, call: nat)
      requires Shows(s) && In(s, call, Opening)
      modifies `resultTxs
      ensures Shows(Apply(s, Open(call)))
    {
      resultTxs := resultTxs + {call};
    }

    method ShadowCall(ghost s: State, call: nat, tool: string)
      requires Shows(s) && In(s, call, Shadowing) && s.asks[call].key.tool == tool
      modifies `callIds
      ensures Shows(Apply(s, Shadow(call)))
    {
      callIds := callIds[call := tool];
    }

    /** Hands the guard to exactly one taker: the call taking it back, or its driver taking it over. */
    method TakeResultTx(ghost s: State, call: nat) returns (taken: bool)
      requires Shows(s) && Row(s, call)
      modifies `resultTxs
      ensures In(s, call, TakingBack) ==>
                var t := Apply(s, TakeBack(call));
                Shows(t) && t.phases[call] == if taken then DroppingBack else Rejected
      ensures forall d: nat | At(s, d) == Taking(call) ::
                var t := Apply(s, Take(d));
                Shows(t) && At(t, d) == if taken then Dialling(call) else Done
    {
      taken := call in resultTxs;
      resultTxs := resultTxs - {call};
    }

    /** Drops a call's bookkeeping: that of a withdrawn one, or of one its driver is through with. */
    method FinishCall(ghost s: State, call: nat)
      requires Shows(s)
      modifies `callIds
      ensures In(s, call, Unshadowing) ==> Shows(Apply(s, Unshadow(call)))
      ensures forall d: nat | At(s, d).Forgetting? && At(s, d).call == call :: Shows(Apply(s, Forget(d)))
    {
      callIds := callIds - {call};
    }

    // ---- Retirement: the tool's queue entries, then its guards, then its shadows ----

    /** Every call for the tool, whatever its grant; what is left to do is to drop the guards. */
    method RetireCallsForToolJob(ghost s: State, ghost d: nat, tool: string) returns (guards: set<nat>)
      requires Shows(s) && At(s, d).Draining? && s.drivers[d].tool == tool
      modifies this
      ensures var t := Run(s, [Drain(d), Scan(d), Seize(d), Erase(d)]); Shows(t) && At(t, d) == Failing(guards)
    {
      DrainTool(s, d, tool);
      ghost var u := Apply(s, Drain(d));
      var ids := ScanShadow(u, d, tool);
      ghost var v := Apply(u, Scan(d));
      guards := SeizeGuards(v, d, ids);
      ghost var w := Apply(v, Seize(d));
      EraseShadows(w, d, ids, guards);
      RunFour(s, Drain(d), Scan(d), Seize(d), Erase(d));
    }

    method DrainTool(ghost s: State, ghost d: nat, tool: string)
      requires Shows(s) && At(s, d).Draining? && s.drivers[d].tool == tool
      modifies `pending
      ensures var t := Apply(s, Drain(d)); Shows(t) && At(t, d).Scanning? && t.drivers == s.drivers
    {
      var keys := pending.Keys;
      while keys != {}
        invariant keys <= pending.Keys <= s.pending.Keys
        invariant forall k | k in pending :: pending[k] == s.pending[k]
        invariant forall k | k in s.pending && k !in keys :: k in pending <==> k.tool != tool
        decreases |keys|
      {
        var k :| k in keys;
        keys := keys - {k};
        if k.tool == tool {
          pending := pending - {k};
        }
      }
      assert pending == Drained(s.pending, tool);
    }

    method ScanShadow(ghost s: State, ghost d: nat, tool: string) returns (ids: set<nat>)
      requires Shows(s) && At(s, d).Scanning? && s.drivers[d].tool == tool
      ensures var t := Apply(s, Scan(d)); Shows(t) && At(t, d) == Seizing(ids)
    {
      ids := set c | c in callIds && callIds[c] == tool;
    }

    method SeizeGuards(ghost s: State, ghost d: nat, ids: set<nat>) returns (guards: set<nat>)
      requires Shows(s) && At(s, d) == Seizing(ids)
      modifies `resultTxs
      ensures var t := Apply(s, Seize(d)); Shows(t) && At(t, d) == Erasing(ids, guards)
    {
      guards := ids * resultTxs;
      resultTxs := resultTxs - ids;
    }

    method EraseShadows(ghost s: State, ghost d: nat, ids: set<nat>, ghost guards: set<nat>)
      requires Shows(s) && At(s, d) == Erasing(ids, guards)
      modifies `callIds
      ensures var t := Apply(s, Erase(d)); Shows(t) && At(t, d) == Failing(guards)
    {
      callIds := callIds - ids;
    }

    // ---- Active tool Jobs ----

    /** The record a new call of this key attaches to, if any. */
    method Attachment(ghost s: State, ghost c: nat, key: Key, now: nat) returns (r: Option<ActiveJob>)
      requires Shows(s) && In(s, c, Resolving) && s.asks[c].key == key
      ensures var t := Apply(s, Resolve(c, now));
              && Shows(t) && t.phases[c] == (if r.Some? then Opening else Creating)
              && (r.Some? ==> t.targets[c] == Job(r.value.id, r.value.name))
    {
      if key in activeJobs && Attachable(activeJobs[key], now) {
        return Some(activeJobs[key]);
      }
      r := None;
    }

    method SetActiveJob(ghost s: State, c: nat, key: Key, name: string, keepalive: bool, now: nat)
      requires Shows(s) && In(s, c, Recording) && s.asks[c].key == key && s.asks[c].keepalive == keepalive && s.targets[c] == Job(c, name)
      modifies `activeJobs
      ensures Shows(Apply(s, Record(c, now)))
    {
      activeJobs := activeJobs[key := ActiveJob(name, c, if keepalive then KEEPALIVE_IDLE else 0, now)];
    }

    /** Whether the Job a call was admitted against is still its key's. */
    method IsCurrent(ghost s: State, ghost c: nat, key: Key, job: nat) returns (current: bool)
      requires Shows(s) && In(s, c, Checking) && s.asks[c].key == key && TargetId(s.targets[c]) == job
      ensures var t := Apply(s, Check(c)); Shows(t) && t.phases[c] == if current then Spawning else Withdrawing
    {
      current := key in activeJobs && activeJobs[key].id == job;
    }

    predicate Matches(jobs: map<Key, ActiveJob>, k: Key, tool: string, name: string) {
      k in jobs && k.tool == tool && jobs[k].name == name
    }

    /** Removes one record of that tool and name, if there is any; otherwise tells whether the tool has
        a record at all. */
    method RemoveActiveJobNamed(ghost s: State, ghost d: nat, tool: string, name: string) returns (r: RecordEviction)
      requires Shows(s) && At(s, d) == Reporting(false) && s.drivers[d].tool == tool && s.drivers[d].name == name
      modifies `activeJobs
      ensures r.Removal? ==>
                exists k :: Evictable(s, d, k) && Shows(Apply(s, Evict(d, k))) && At(Apply(s, Evict(d, k)), d).Draining?
      ensures !r.Removal? ==> Shows(Apply(s, KeepRecord(d))) && At(Apply(s, KeepRecord(d)), d).Done?
      ensures r.SupersededByAnotherJob? ==> exists k | k in s.active :: k.tool == tool
      ensures r.NoRecord? ==> forall k | k in s.active :: k.tool != tool
    {
      hide Apply;
      var superseded := false;
      var keys := activeJobs.Keys;
      while keys != {}
        invariant keys <= activeJobs.Keys && activeJobs == s.active && Shows(s)
        invariant forall k | k in activeJobs && k !in keys :: !Matches(activeJobs, k, tool, name)
        invariant superseded <==> exists k | k in activeJobs && k !in keys :: k.tool == tool
        decreases |keys|
      {
        var k :| k in keys;
        keys := keys - {k};
        if k.tool == tool {
          if activeJobs[k].name == name {
            EvictIs(s, d, k);
            activeJobs := activeJobs - {k};
            assert Evictable(s, d, k) && Shows(DoEvict(s, d, k));
            return Removal;
          }
          superseded := true;
        }
      }
      assert forall k | k in s.active :: !Matches(s.active, k, tool, name);
      KeepIs(s, d);
      r := if superseded then SupersededByAnotherJob else NoRecord;
    }

    static lemma EvictIs(s: State, d: nat, k: Key)
      requires At(s, d) == Reporting(false) && Evictable(s, d, k)
      ensures Apply(s, Evict(d, k)) == DoEvict(s, d, k) && At(DoEvict(s, d, k), d).Draining?
    {
    }

    static lemma KeepIs(s: State, d: nat)
      requires At(s, d) == Reporting(false) && forall k | k in s.active :: !Evictable(s, d, k)
      ensures Apply(s, KeepRecord(d)) == Quit(s, d) && At(Quit(s, d), d).Done?
    {
    }

    static lemma BumpIs(s: State, d: nat, served: string, now: nat)
      requires At(s, d) == Reporting(true)
      ensures var t := Apply(s, Bump(d, served, now));
              && At(t, d).Done? && t.pending == s.pending && t.parked == s.parked && t.shadow == s.shadow
              && t.active == Bumped(s.active, served, s.drivers[d].name, now)
    {
      hide Bumped;
    }

    method BumpLastActivity(ghost s: State, ghost d: nat, served: string, name: string, now: nat)
      requires Shows(s) && At(s, d) == Reporting(true) && s.drivers[d].name == name
      modifies `activeJobs
      ensures Shows(Apply(s, Bump(d, served, now))) && At(Apply(s, Bump(d, served, now)), d).Done?
    {
      BumpIs(s, d, served, now);
      hide Apply;
      var keys := activeJobs.Keys;
      while keys != {}
        invariant activeJobs.Keys == s.active.Keys && keys <= activeJobs.Keys
        invariant forall k | k in activeJobs ::
                    activeJobs[k] == if k in keys then s.active[k] else Bumped(s.active, served, name, now)[k]
        decreases |keys|
      {
        var k :| k in keys;
        keys := keys - {k};
        if k.tool == served && activeJobs[k].name == name {
          activeJobs := activeJobs[k := activeJobs[k].(lastActivity := now)];
        }
      }
      assert activeJobs == Bumped(s.active, served, name, now);
    }

    // ---- The end of a driver ----

    /** What a driver does when its dial is over: forget the call, then note the pod's activity, or evict its
        record and retire the calls for its tool. */
    method Conclude(ghost s: State, ghost d: nat, call: nat, completed: bool, tool: string, served: string, name: string, now: nat)
        returns (r: Option<set<nat>>, ghost steps: seq<Step>)
      requires Shows(s) && At(s, d) == Forgetting(call, completed) && s.drivers[d].tool == tool && s.drivers[d].name == name
      modifies this
      ensures Shows(Run(s, steps)) && At(Run(s, steps), d) == if r.Some? then Failing(r.value) else Done
      ensures r.Some? ==> !completed && exists k :: Evictable(s, d, k)
    {
      hide Apply;
      FinishCall(s, call);
      ghost var t := Apply(s, Forget(d));
      ForgetIs(s, d);
      RunOne(s, Forget(d));
      steps, r := [Forget(d)], None;
      if completed {
        BumpLastActivity(t, d, served, name, now);
        steps := steps + [Bump(d, served, now)];
        RunOne(t, Bump(d, served, now));
        RunJoin(s, [Forget(d)], [Bump(d, served, now)]);
        return;
      }
      var eviction := RemoveActiveJobNamed(t, d, tool, name);
      if !eviction.Removal? {
        steps := steps + [KeepRecord(d)];
        RunOne(t, KeepRecord(d));
        RunJoin(s, [Forget(d)], [KeepRecord(d)]);
        return;
      }
      ghost var k :| Evictable(t, d, k) && Shows(Apply(t, Evict(d, k))) && At(Apply(t, Evict(d, k)), d).Draining?;
      ghost var u := Apply(t, Evict(d, k));
      EvictIs(t, d, k);
      assert Evictable(s, d, k);
      var guards := RetireCallsForToolJob(u, d, tool);
      r := Some(guards);
      RunOne(t, Evict(d, k));
      RunJoin(s, [Forget(d)], [Evict(d, k)]);
      RunJoin(s, [Forget(d)] + [Evict(d, k)], [Drain(d), Scan(d), Seize(d), Erase(d)]);
      steps := steps + [Evict(d, k)] + [Drain(d), Scan(d), Seize(d), Erase(d)];
    }

    static lemma ForgetIs(s: State, d: nat)
      requires At(s, d).Forgetting?
      ensures var t := Apply(s, Forget(d));
              At(t, d) == Reporting(At(s, d).ok) && t.drivers == s.drivers && t.active == s.active
    {
    }
  }

  // ---- One dial ----

  /** How one attempt to reach the pod goes. */
  datatype Attempt = Cancelled | Missed(late: bool) | Connected

  /** Some attempt gets through, and all before it only missed with time left. */
  predicate Connects(dials: seq<Attempt>) {
    exists i | 0 <= i < |dials| :: dials[i].Connected? && MissesEarly(dials[..i])
  }

  predicate MissesEarly(dials: seq<Attempt>) {
    forall j | 0 <= j < |dials| :: dials[j] == Missed(false)
  }

  /** What of a pod's stream is passed on: everything before an error, up to the first terminal. */
  function PassedOn(stream: seq<Option<Frame>>): seq<Frame> {
    if stream == [] || stream[0].None? then []
    else if IsTerminal(stream[0].value) then [stream[0].value]
    else [stream[0].value] + PassedOn(stream[1..])
  }

  predicate Completes(stream: seq<Option<Frame>>) {
    PassedOn(stream) != [] && IsTerminal(PassedOn(stream)[|PassedOn(stream)| - 1])
  }

  lemma {:induction false} OnlyLastTerminal(stream: seq<Option<Frame>>)
    ensures WellTerminated(PassedOn(stream))
    decreases |stream|
  {
    if stream != [] && stream[0].Some? && !IsTerminal(stream[0].value) {
      OnlyLastTerminal(stream[1..]);
      var rest := PassedOn(stream[1..]);
      var fs := PassedOn(stream);
      assert forall i | 1 <= i < |fs| :: fs[i] == rest[i - 1];
      if rest != [] {
        assert forall i | 0 <= i < |rest| - 1 :: rest[..|rest| - 1][i] == rest[i];
      }
    }
  }

  /** What a dial that was or was not accepted sends in all. */
  function DialSends(reached: bool, stream: seq<Option<Frame>>): seq<Frame> {
    if !reached then [FAILED_TERMINAL]
    else PassedOn(stream) + if Completes(stream) then [] else [FAILED_TERMINAL]
  }

  /** Dials and runs one call. A receiver that keeps up gets what the pod sent up to its terminal, closed
      by the synthetic failure exactly when the pod gave none: in every case one terminal, last. */
  method DialAndRun(dials: seq<Attempt>, accepted: bool, stream: seq<Option<Frame>>) returns (completed: bool, sent: seq<Frame>)
    ensures completed <==> Connects(dials) && accepted && exists n | 0 <= n < |stream| :: EndsAt(stream, n)
    ensures completed ==> |sent| <= |stream| && EndsAt(stream, |sent| - 1) && Copies(sent, stream)
    ensures !completed ==> sent != [] && sent[|sent| - 1] == FAILED_TERMINAL
    ensures !completed && !(Connects(dials) && accepted) ==> |sent| == 1
    ensures !completed && Connects(dials) && accepted ==>
              var fs := sent[..|sent| - 1]; Copies(fs, stream) && NoTerminal(fs) && (|fs| == |stream| || stream[|fs|].None?)
    ensures sent == DialSends(Connects(dials) && accepted, stream)
    ensures sent != [] && WellTerminated(sent) && IsTerminal(sent[|sent| - 1])
  {
    sent := [];
    completed := false;
    var connected := Dial(dials);
    if connected && accepted {
      completed, sent := PassFrames(stream);
      PassedFits(stream, sent);
      hide PassedOn;
    }
    if !completed {
      assert (sent + [FAILED_TERMINAL])[..|sent|] == sent;
      sent := sent + [FAILED_TERMINAL];
    }
  }

  method Dial(dials: seq<Attempt>) returns (connected: bool)
    ensures connected <==>
              exists i | 0 <= i < |dials| :: dials[i].Connected? && forall j | 0 <= j < i :: dials[j] == Missed(false)
    ensures connected == Connects(dials)
  {
    var i := 0;
    while i < |dials|
      invariant i <= |dials| && forall j | 0 <= j < i :: dials[j] == Missed(false)
    {
      if dials[i].Cancelled? || (dials[i].Missed? && dials[i].late) {
        return false;
      }
      if dials[i].Connected? {
        assert MissesEarly(dials[..i]);
        return true;
      }
      i := i + 1;
    }
    return false;
  }

  /** The pod's first terminal, before any error, is frame `n`. */
  predicate EndsAt(stream: seq<Option<Frame>>, n: int) {
    && 0 <= n < |stream| && stream[n].Some? && IsTerminal(stream[n].value)
    && forall i | 0 <= i < n :: stream[i].Some? && !IsTerminal(stream[i].value)
  }

  /** These are the first frames of the stream, each as it was. */
  predicate Copies(fs: seq<Frame>, stream: seq<Option<Frame>>) {
    |fs| <= |stream| && forall i | 0 <= i < |fs| :: stream[i] == Some(fs[i])
  }

  lemma NotEnded(stream: seq<Option<Frame>>, fs: seq<Frame>)
    requires Copies(fs, stream) && NoTerminal(fs) && (|fs| == |stream| || stream[|fs|].None?)
    ensures forall n | 0 <= n < |stream| :: !EndsAt(stream, n)
  {
    forall n | 0 <= n < |stream| ensures !EndsAt(stream, n) {
      if n < |fs| {
        assert stream[n] == Some(fs[n]);
      } else {
        assert stream[|fs|].None?;
      }
    }
  }

  /** A copy of the stream up to its first terminal, or up to its end or first error, is what is passed on. */
  lemma {:induction false} CopyIsPassedOn(stream: seq<Option<Frame>>, fs: seq<Frame>)
    requires Copies(fs, stream) && (forall i | 0 <= i < |fs| - 1 :: !fs[i].Complete?)
    requires (fs != [] && fs[|fs| - 1].Complete?) || |fs| == |stream| || stream[|fs|].None?
    ensures fs == PassedOn(stream)
    decreases |stream|
  {
    if fs != [] {
      assert stream[0] == Some(fs[0]);
      if !fs[0].Complete? {
        assert forall i | 0 <= i < |fs| - 1 :: stream[1..][i] == stream[i + 1] && fs[1..][i] == fs[i + 1];
        CopyIsPassedOn(stream[1..], fs[1..]);
      }
    }
  }

  method PassFrames(stream: seq<Option<Frame>>) returns (terminal: bool, sent: seq<Frame>)
    ensures |sent| <= |stream| && forall i | 0 <= i < |sent| :: stream[i] == Some(sent[i])
    ensures forall i | 0 <= i < |sent| - 1 :: !sent[i].Complete?
    ensures terminal <==> sent != [] && sent[|sent| - 1].Complete?
    ensures terminal || |sent| == |stream| || stream[|sent|].None?
    ensures sent == PassedOn(stream)
  {
    sent := [];
    var i := 0;
    while i < |stream| && stream[i].Some?
      invariant i <= |stream| && |sent| == i
      invariant forall j | 0 <= j < i :: stream[j] == Some(sent[j]) && !sent[j].Complete?
    {
      var f := stream[i].value;
      sent := sent + [f];
      if IsTerminal(f) {
        CopyIsPassedOn(stream, sent);
        return true, sent;
      }
      i := i + 1;
    }
    CopyIsPassedOn(stream, sent);
    terminal := false;
  }

  lemma PassedFits(stream: seq<Option<Frame>>, sent: seq<Frame>)
    requires Copies(sent, stream) && (forall i | 0 <= i < |sent| - 1 :: !sent[i].Complete?)
    requires (sent != [] && sent[|sent| - 1].Complete?) || |sent| == |stream| || stream[|sent|].None?
    ensures WellTerminated(sent)
    ensures sent != [] && sent[|sent| - 1].Complete? ==> EndsAt(stream, |sent| - 1)
    ensures sent == [] || !sent[|sent| - 1].Complete? ==> NoTerminal(sent) && forall n | 0 <= n < |stream| :: !EndsAt(stream, n)
  {
    if sent == [] || !sent[|sent| - 1].Complete? {
      NotEnded(stream, sent);
    }
  }
}
