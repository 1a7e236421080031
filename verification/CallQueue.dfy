/** The pending-call queue: one bucket of waiting calls for each tool and grant. */
module CallQueue {
  import opened Wrappers

  datatype Key = Key(tool: string, grant: Option<string>)

  /** A queued call, with the Job it may run on. */
  datatype Pending = Pending(call: nat, key: Key, args: string, target: nat)

  type Buckets = map<Key, seq<Pending>>

  function Bucket(b: Buckets, k: Key): seq<Pending> {
    if k in b then b[k] else []
  }

  function Pushed(b: Buckets, p: Pending): Buckets {
    b[p.key := Bucket(b, p.key) + [p]]
  }

  /** The first entry aimed at `job`; the length of the queue when there is none. */
  function Position(q: seq<Pending>, job: nat): (i: nat)
    ensures i <= |q|
    ensures i < |q| ==> q[i].target == job
    ensures forall k | 0 <= k < i :: q[k].target != job
  {
    if q == [] then 0
    else if q[0].target == job then 0
    else
      var rest := Position(q[1..], job);
      assert forall k | 1 <= k < 1 + rest :: q[k] == q[1..][k - 1];
      1 + rest
  }

  predicate Aimed(q: seq<Pending>, job: nat) {
    Position(q, job) < |q|
  }

  function Removed(q: seq<Pending>, i: nat): (r: seq<Pending>)
    requires i < |q|
    ensures |r| == |q| - 1
  {
    q[..i] + q[i + 1..]
  }

  predicate Names(q: seq<Pending>, call: nat) {
    exists i | 0 <= i < |q| :: q[i].call == call
  }

  function Without(q: seq<Pending>, call: nat): seq<Pending> {
    if q == [] then []
    else if q[0].call == call then Without(q[1..], call)
    else [q[0]] + Without(q[1..], call)
  }

  function Drained(b: Buckets, tool: string): Buckets {
    map k | k in b && k.tool != tool :: b[k]
  }

  function DrainedCalls(b: Buckets, tool: string): set<nat> {
    set k, i | k in b && k.tool == tool && 0 <= i < |b[k]| :: b[k][i].call
  }
}
