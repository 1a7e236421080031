/** The queue's half of the dispatch invariant: entries are the queued calls, in order of arrival. */
module DispatchLine {
  import opened CallQueue
  import opened Dispatch
  import opened DispatchInvariant

  // ---- Queue operations ----

  lemma {:induction false} WithoutIs(q: seq<Pending>, c: nat)
    ensures forall e :: e in Without(q, c) <==> e in q && e.call != c
    decreases |q|
  {
    if q != [] {
      WithoutIs(q[1..], c);
      assert q == [q[0]] + q[1..];
    }
  }

  lemma ConsInOrder(tickets: seq<nat>, e: Pending, q: seq<Pending>)
    requires InOrder(tickets, q) && e.call < |tickets|
    requires forall x | x in q :: x.call < |tickets| && tickets[e.call] < tickets[x.call]
    ensures InOrder(tickets, [e] + q)
  {
    var r := [e] + q;
    assert forall i | 1 <= i < |r| :: r[i] == q[i - 1] && r[i] in q;
  }

  lemma TailInOrder(tickets: seq<nat>, q: seq<Pending>)
    requires InOrder(tickets, q) && q != []
    ensures InOrder(tickets, q[1..])
    ensures forall x | x in q[1..] :: x.call < |tickets| && tickets[q[0].call] < tickets[x.call]
  {
    assert forall i | 0 <= i < |q| - 1 :: q[1..][i] == q[i + 1];
  }

  lemma {:induction false} WithoutInOrder(tickets: seq<nat>, q: seq<Pending>, c: nat)
    requires InOrder(tickets, q)
    ensures InOrder(tickets, Without(q, c))
    decreases |q|
  {
    if q != [] {
      TailInOrder(tickets, q);
      WithoutInOrder(tickets, q[1..], c);
      WithoutIs(q[1..], c);
      if q[0].call != c {
        ConsInOrder(tickets, q[0], Without(q[1..], c));
      }
    }
  }

  lemma RemovedIs(tickets: seq<nat>, q: seq<Pending>, i: nat)
    requires InOrder(tickets, q) && i < |q|
    ensures InOrder(tickets, Removed(q, i))
    ensures forall e | e in q && e != q[i] :: e in Removed(q, i)
    ensures forall j | 0 <= j < |Removed(q, i)| :: Removed(q, i)[j] in q && Removed(q, i)[j].call != q[i].call
  {
    var r := Removed(q, i);
    assert forall j | 0 <= j < i :: r[j] == q[j];
    assert forall j | i <= j < |r| :: r[j] == q[j + 1];
    assert forall j | i < j < |q| :: q[j] == r[j - 1];
  }

  lemma SnocInOrder(tickets: seq<nat>, q: seq<Pending>, e: Pending)
    requires InOrder(tickets, q) && e.call < |tickets|
    requires forall x | x in q :: x.call < |tickets| && tickets[x.call] < tickets[e.call]
    ensures InOrder(tickets, q + [e])
  {
  }

  lemma StampedInOrder(tickets: seq<nat>, c: nat, clock: nat, q: seq<Pending>)
    requires InOrder(tickets, q) && c < |tickets| && forall x | x in q :: x.call != c
    ensures InOrder(tickets[c := clock], q)
  {
    assert forall i | 0 <= i < |q| :: q[i] in q;
  }

  // ---- Enqueue ----

  lemma PushLists(asks: seq<Ask>, targets: seq<Target>, places: seq<Place>, pending: Buckets, c: nat)
    requires Listed(asks, targets, places, pending) && c < |places| && !places[c].Queued?
    ensures Listed(asks, targets, places[c := Queued], Pushed(pending, EntryOf(asks, targets, c)))
  {
  }

  lemma PushOrders(asks: seq<Ask>, targets: seq<Target>, places: seq<Place>, tickets: seq<nat>, clock: nat, pending: Buckets, c: nat)
    requires Listed(asks, targets, places, pending) && Ticketed(places, tickets, clock) && Ordered(tickets, pending)
    requires c < |places| && !places[c].Queued?
    ensures Ordered(tickets[c := clock], Pushed(pending, EntryOf(asks, targets, c)))
  {
    var e := EntryOf(asks, targets, c);
    var tickets', pending' := tickets[c := clock], Pushed(pending, e);
    forall k | k in pending' ensures InOrder(tickets', pending'[k]) {
      var q := Bucket(pending, k);
      forall x | x in q ensures x.call != c && x.call < |tickets| && tickets[x.call] < clock {
        assert EntryFits(asks, targets, places, k, x);
      }
      StampedInOrder(tickets, c, clock, q);
      if k == e.key {
        SnocInOrder(tickets', q, e);
      }
    }
  }

  // ---- Withdraw ----

  lemma WithdrawLists(asks: seq<Ask>, targets: seq<Target>, places: seq<Place>, pending: Buckets, c: nat, k: Key)
    requires Listed(asks, targets, places, pending) && c < |places| && k == asks[c].key
    ensures Listed(asks, targets, places[c := Withdrawn], pending[k := Without(Bucket(pending, k), c)])
  {
    WithoutIs(Bucket(pending, k), c);
    var pending' := pending[k := Without(Bucket(pending, k), c)];
    forall j, i | j in pending' && 0 <= i < |pending'[j]|
      ensures EntryFits(asks, targets, places[c := Withdrawn], j, pending'[j][i])
    {
      assert pending'[j][i] in Bucket(pending, j);
    }
  }

  // ---- Claim ----

  lemma ClaimLists(asks: seq<Ask>, targets: seq<Target>, places: seq<Place>, tickets: seq<nat>, pending: Buckets, k: Key, i: nat, d: nat)
    requires Listed(asks, targets, places, pending) && Ordered(tickets, pending) && k in pending && i < |pending[k]|
    ensures Listed(asks, targets, places[pending[k][i].call := ClaimedBy(d)], pending[k := Removed(pending[k], i)])
  {
    var q, pending' := pending[k], pending[k := Removed(pending[k], i)];
    RemovedIs(tickets, q, i);
    var c := q[i].call;
    forall j, x | j in pending' && 0 <= x < |pending'[j]|
      ensures EntryFits(asks, targets, places[c := ClaimedBy(d)], j, pending'[j][x])
    {
      assert pending'[j][x] in pending[j];
      assert EntryFits(asks, targets, places, k, q[i]);
    }
  }

  lemma EntryTargeted(s: State, k: Key, i: nat)
    requires Guarded(s) && Listed(s.asks, s.targets, s.places, s.pending) && k in s.pending && i < |s.pending[k]|
    ensures var e := s.pending[k][i];
            && e.call < |s.places| && s.places[e.call].Queued? && s.asks[e.call].key == k
            && s.targets[e.call].Job? && s.targets[e.call].id == e.target && e.target in s.jobs && s.jobs[e.target] == k
  {
    hide Routed, Working, Held, Shadowed, Watched, Evicted, Sending;
    var c := s.pending[k][i].call;
    assert EntryFits(s.asks, s.targets, s.places, k, s.pending[k][i]);
    assert TargetFits(s.jobs, c, s.asks[c], s.phases[c], s.targets[c]);
    assert PhaseFits(s.phases[c], s.places[c], s.holders[c]);
  }

  /** Calls for one Job all wait in the bucket the Job was created for. */
  lemma OneBucket(s: State, k: Key, i: nat, c: nat)
    requires Guarded(s) && Listed(s.asks, s.targets, s.places, s.pending) && k in s.pending && i < |s.pending[k]|
    requires c < |s.places| && s.places[c].Queued? && TargetId(s.targets[c]) == s.pending[k][i].target
    ensures s.asks[c].key == k
  {
    hide Routed, Working, Held, Shadowed, Watched, Evicted, Sending;
    EntryTargeted(s, k, i);
    assert TargetFits(s.jobs, c, s.asks[c], s.phases[c], s.targets[c]);
    assert PhaseFits(s.phases[c], s.places[c], s.holders[c]);
  }

  /** The claimed call came before every other one still waiting for its Job. */
  lemma FirstCome(s: State, k: Key, job: nat, c: nat)
    requires Guarded(s) && Lined(s) && k in s.pending && Aimed(s.pending[k], job)
    requires c < |s.places| && s.places[c].Queued? && TargetId(s.targets[c]) == job
    ensures var first := s.pending[k][Position(s.pending[k], job)].call;
            first == c || (first < |s.tickets| && s.tickets[first] < s.tickets[c])
  {
    hide Phased, Targeted, Routed, Working, Held, Shadowed, Watched, Evicted, Sending, Ticketed, Claimed;
    var q := s.pending[k];
    OneBucket(s, k, Position(q, job), c);
    assert Enqueued(s.asks, s.targets, s.pending, c);
    var x :| 0 <= x < |q| && q[x] == EntryOf(s.asks, s.targets, c);
    assert Position(q, job) <= x;
    assert InOrder(s.tickets, q);
  }

  lemma ClaimOrders(s: State, d: nat, k: Key)
    requires Guarded(s) && Lined(s) && CanClaim(s, d, k)
    ensures Lined(DoClaim(s, d, k))
  {
    hide Routed, Working, Held, Shadowed, Watched, Evicted, Sending;
    var q, job := s.pending[k], s.drivers[d].job;
    var i := Position(q, job);
    var c := q[i].call;
    ClaimLists(s.asks, s.targets, s.places, s.tickets, s.pending, k, i, d);
    RemovedIs(s.tickets, q, i);
    assert EntryFits(s.asks, s.targets, s.places, k, q[i]);
    forall x | 0 <= x < |s.places| && s.places[x].Queued? && TargetId(s.targets[x]) == job && x != c
      ensures s.tickets[c] < s.tickets[x]
    {
      FirstCome(s, k, job, x);
    }
    ClaimAdds(s.targets, s.places, s.tickets, s.claims, c, d);
  }

  lemma ClaimAdds(targets: seq<Target>, places: seq<Place>, tickets: seq<nat>, claims: seq<nat>, c: nat, d: nat)
    requires Claimed(targets, places, tickets, claims) && c < |places| && places[c].Queued?
    requires forall x | 0 <= x < |places| && places[x].Queued? && TargetId(targets[x]) == TargetId(targets[c]) && x != c ::
               tickets[c] < tickets[x]
    ensures Claimed(targets, places[c := ClaimedBy(d)], tickets, claims + [c])
  {
  }

  // ---- Drain ----

  lemma InDrained(pending: Buckets, k: Key, i: nat)
    requires k in pending && i < |pending[k]|
    ensures pending[k][i].call in DrainedCalls(pending, k.tool)
  {
  }

  /** What is drained was queued, for that tool. */
  lemma DrainedIs(asks: seq<Ask>, targets: seq<Target>, places: seq<Place>, pending: Buckets, tool: string, c: nat)
    requires Listed(asks, targets, places, pending) && c in DrainedCalls(pending, tool)
    ensures c < |places| && places[c].Queued? && asks[c].key.tool == tool
  {
    var k, i :| k in pending && k.tool == tool && 0 <= i < |pending[k]| && pending[k][i].call == c;
    assert EntryFits(asks, targets, places, k, pending[k][i]);
  }

  lemma DrainLists(asks: seq<Ask>, targets: seq<Target>, places: seq<Place>, pending: Buckets, tool: string, places': seq<Place>)
    requires Listed(asks, targets, places, pending) && |places'| == |places|
    requires forall c | 0 <= c < |places| ::
               if c in DrainedCalls(pending, tool) then places'[c].EvictedBy? else places'[c] == places[c]
    ensures Listed(asks, targets, places', Drained(pending, tool))
  {
    forall c | 0 <= c < |places| && places'[c].Queued? ensures Enqueued(asks, targets, Drained(pending, tool), c) {
      assert Enqueued(asks, targets, pending, c);
      var k := asks[c].key;
      var i: nat :| i < |pending[k]| && pending[k][i] == EntryOf(asks, targets, c);
      if k.tool == tool {
        InDrained(pending, k, i);
      }
    }
    forall k, i | k in Drained(pending, tool) && 0 <= i < |Drained(pending, tool)[k]|
      ensures EntryFits(asks, targets, places', k, Drained(pending, tool)[k][i])
    {
      assert EntryFits(asks, targets, places, k, pending[k][i]);
      if pending[k][i].call in DrainedCalls(pending, tool) {
        DrainedIs(asks, targets, places, pending, tool, pending[k][i].call);
      }
    }
  }

  // ---- The steps that touch the queue ----

  lemma BeginLines(s: State, ask: Ask)
    requires Lined(s)
    ensures Lined(DoBegin(s, ask))
  {
  }

  /** A call not yet queued may be given its target. */
  lemma TargetLines(s: State, c: nat, target: Target)
    requires Lined(s) && c < |s.targets| && s.places[c].Outside?
    ensures Lined(s.(targets := s.targets[c := target]))
  {
  }

  lemma EnqueueLines(s: State, c: nat)
    requires Lined(s) && In(s, c, Enqueuing) && s.places[c].Outside?
    ensures Lined(DoEnqueue(s, c))
  {
    PushLists(s.asks, s.targets, s.places, s.pending, c);
    PushOrders(s.asks, s.targets, s.places, s.tickets, s.clock, s.pending, c);
  }

  lemma WithdrawLines(s: State, c: nat)
    requires Lined(s) && In(s, c, Withdrawing) && (s.places[c].Queued? || !Names(Bucket(s.pending, s.asks[c].key), c))
    ensures Lined(DoWithdraw(s, c))
  {
    WithdrawLists(s.asks, s.targets, s.places, s.pending, c, s.asks[c].key);
    WithoutInOrder(s.tickets, Bucket(s.pending, s.asks[c].key), c);
  }

  lemma DrainLines(s: State, d: nat)
    requires Lined(s) && At(s, d).Draining?
    ensures Lined(DoDrain(s, d))
  {
    var tool := s.drivers[d].tool;
    DrainLists(s.asks, s.targets, s.places, s.pending, tool, DoDrain(s, d).places);
    forall c | c in DrainedCalls(s.pending, tool) ensures c < |s.places| && s.places[c].Queued? {
      DrainedIs(s.asks, s.targets, s.places, s.pending, tool, c);
    }
  }
}
