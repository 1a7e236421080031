/** What every run of the model loop keeps to, to any depth of nesting. */
module AgentTheorems {
  import opened Wrappers
  import opened Fold
  import opened Conversation
  import opened Agent
  import opened AgentScript

  // ---- An orderly trace ----

  predicate MintedBefore(trace: seq<Event>, i: nat, c: nat)
    requires i <= |trace|
  {
    exists j | 0 <= j < i :: trace[j] == Mint(c)
  }

  /** The conversation of the run itself, or one minted earlier in it. */
  predicate Known(trace: seq<Event>, i: nat, root: nat, c: nat)
    requires i <= |trace|
  {
    c == root || MintedBefore(trace, i, c)
  }

  predicate IsYes(e: Event, tool: string, input: string) {
    e.Asked? && e.tool == tool && e.input == input && e.answer == Result(Some(true))
  }

  /** A call begins right after its conversation's user answered yes to the same tool and input, in the run
      itself with the grant selected for its toolset and elsewhere with none. A conversation is minted right
      after such an answer and a sub-turn starts right after that. Minted ids are new, and only the run's own
      conversation and minted ones are touched. */
  predicate OrderlyAt(trace: seq<Event>, i: nat, root: nat, grants: map<string, string>, lo: nat, hi: nat)
    requires i < |trace|
  {
    match trace[i]
    case BeginCall(c, tool, input, toolset, grant) =>
      && i >= 1 && IsYes(trace[i - 1], tool, input) && trace[i - 1].conv == c
      && Known(trace, i, root, c) && grant == if c == root then Selected(grants, toolset) else None
    case SubTurn(c, tool, input) => i >= 2 && trace[i - 1] == Mint(c) && IsYes(trace[i - 2], tool, input)
    case Mint(c) =>
      && lo <= c < hi && !MintedBefore(trace, i, c)
      && i >= 1 && trace[i - 1].Asked? && IsYes(trace[i - 1], trace[i - 1].tool, trace[i - 1].input)
    case Append(c, _) => Known(trace, i, root, c)
    case Request(c, _) => Known(trace, i, root, c)
    case CancelTurn(c) => Known(trace, i, root, c)
    case Asked(c, _, _, _) => Known(trace, i, root, c)
  }

  ghost predicate Orderly(trace: seq<Event>, root: nat, grants: map<string, string>, lo: nat, hi: nat) {
    lo <= hi && forall i | 0 <= i < |trace| :: OrderlyAt(trace, i, root, grants, lo, hi)
  }

  lemma StillMinted(a: seq<Event>, b: seq<Event>, i: nat, c: nat)
    requires i <= |b| && MintedBefore(b, i, c)
    ensures MintedBefore(a + b, |a| + i, c)
  {
    var j :| 0 <= j < i && b[j] == Mint(c);
    assert (a + b)[|a| + j] == Mint(c);
  }

  lemma NotMinted(a: seq<Event>, b: seq<Event>, i: nat, c: nat)
    requires i <= |b| && !MintedBefore(b, i, c) && forall j | 0 <= j < |a| :: a[j] != Mint(c)
    ensures !MintedBefore(a + b, |a| + i, c)
  {
    forall j | 0 <= j < |a| + i ensures (a + b)[j] != Mint(c) {
    }
  }

  lemma OrderlyHead(a: seq<Event>, b: seq<Event>, i: nat, root: nat, grants: map<string, string>, lo: nat, hi: nat, hi': nat)
    requires i < |a| && hi <= hi' && OrderlyAt(a, i, root, grants, lo, hi)
    ensures OrderlyAt(a + b, i, root, grants, lo, hi')
  {
    var t := a + b;
    assert forall j | 0 <= j < |a| :: t[j] == a[j];
    assert forall c :: MintedBefore(t, i, c) <==> MintedBefore(a, i, c);
  }

  /** Nothing in `a` mints what `b` does. */
  lemma OrderlyTail(a: seq<Event>, b: seq<Event>, i: nat, root: nat, grants: map<string, string>, lo: nat, mid: nat, hi: nat)
    requires lo <= mid && i < |b| && OrderlyAt(b, i, root, grants, mid, hi)
    requires forall j | 0 <= j < |a| && a[j].Mint? :: a[j].conv < mid
    ensures OrderlyAt(a + b, |a| + i, root, grants, lo, hi)
  {
    var t := a + b;
    assert t[|a| + i] == b[i];
    assert i >= 1 ==> t[|a| + i - 1] == b[i - 1];
    assert i >= 2 ==> t[|a| + i - 2] == b[i - 2];
    match b[i]
    case Mint(c) => NotMinted(a, b, i, c);
    case BeginCall(c, _, _, _, _) => if c != root { StillMinted(a, b, i, c); }
    case Append(c, _) => if c != root { StillMinted(a, b, i, c); }
    case Request(c, _) => if c != root { StillMinted(a, b, i, c); }
    case CancelTurn(c) => if c != root { StillMinted(a, b, i, c); }
    case Asked(c, _, _, _) => if c != root { StillMinted(a, b, i, c); }
    case _ =>
  }

  lemma OrderlyJoin(a: seq<Event>, b: seq<Event>, root: nat, grants: map<string, string>, lo: nat, mid: nat, hi: nat)
    requires Orderly(a, root, grants, lo, mid) && Orderly(b, root, grants, mid, hi)
    ensures Orderly(a + b, root, grants, lo, hi)
  {
    forall j | 0 <= j < |a| && a[j].Mint? ensures a[j].conv < mid {
      assert OrderlyAt(a, j, root, grants, lo, mid);
    }
    forall i | 0 <= i < |a + b| ensures OrderlyAt(a + b, i, root, grants, lo, hi) {
      if i < |a| {
        OrderlyHead(a, b, i, root, grants, lo, mid, hi);
      } else {
        OrderlyTail(a, b, i - |a|, root, grants, lo, mid, hi);
      }
    }
  }

  /** A sub-run, seen from the run that started it. */
  lemma OrderlySub(ask: Event, call: ToolCall, sub: seq<Event>, root: nat, grants: map<string, string>, next: nat, hi: nat)
    requires IsYes(ask, call.name, call.input) && ask.conv == root
    requires Orderly(sub, next, map[], next + 1, hi) && root < next
    ensures var t := [ask, Mint(next), SubTurn(next, call.name, call.input)] + sub;
            Orderly(t, root, grants, next, hi) && OnlyMinted(t)
  {
    var head := [ask, Mint(next), SubTurn(next, call.name, call.input)];
    var t := head + sub;
    assert head[1] == Mint(next) && t[1] == Mint(next);
    forall i | 0 <= i < |t| ensures OrderlyAt(t, i, root, grants, next, hi) && OnlyMintedAt(t, i) {
      if i >= 3 {
        assert OrderlyAt(sub, i - 3, next, map[], next + 1, hi);
        OrderlyTail(head, sub, i - 3, next, map[], next, next + 1, hi);
        assert MintedBefore(t, i, next);
        if t[i].BeginCall? && t[i].conv != next {
          var j :| 0 <= j < i && t[j] == Mint(t[i].conv);
          assert j >= 3 ==> OrderlyAt(sub, j - 3, next, map[], next + 1, hi);
        }
      }
    }
  }

  /** Requests and appends go to conversations minted in this very trace. */
  predicate OnlyMintedAt(trace: seq<Event>, i: nat)
    requires i < |trace|
  {
    match trace[i]
    case Append(c, _) => MintedBefore(trace, i, c)
    case Request(c, _) => MintedBefore(trace, i, c)
    case CancelTurn(c) => MintedBefore(trace, i, c)
    case _ => true
  }

  ghost predicate OnlyMinted(trace: seq<Event>) {
    forall i | 0 <= i < |trace| :: OnlyMintedAt(trace, i)
  }

  // ---- Every run is orderly ----

  /** The turn after which there is no other. */
  predicate LastTurn(turns: seq<Turn>, max: nat, iterations: nat) {
    !(turns != [] && turns[0].Answer? && turns[0].stop.ToolUse? && turns[0].calls != [] && iterations + 1 < max)
  }

  /** One round of the loop, and the rest of it. */
  lemma LoopStep(turns: seq<Turn>, max: nat, conv: nat, messages: seq<Message>, iterations: nat,
                 grants: map<string, string>, next: nat)
    requires !LastTurn(turns, max, iterations)
    ensures var assistant := AssistantMessage(turns[0].content, CallsOf(turns[0].calls));
            var round := Calls(turns[0].calls, conv, grants, next);
            var did := [Request(conv, messages)] + Persisted(conv, assistant) + round.trace;
            Loop(turns, max, conv, messages, iterations, grants, next) ==
            if round.value.None? then Run(did, round.next, Stopped)
            else Prefixed(did, Loop(turns[1..], max, conv, messages + [assistant] + round.value.value, iterations + 1, grants, round.next))
  {
    hide Calls;
  }

  predicate StartsSub(t: Tried) {
    t.fate.Delegated? && Judge(t.fate.asked).Yes? && t.fate.start.Started?
  }

  /** The run of the sub-agent a call starts. */
  function SubRun(t: Tried, next: nat): Run<Ending>
    requires StartsSub(t)
  {
    Loop(t.fate.start.turns, MAX_SUBTURN_ITERATIONS, next, [UserMessage(t.fate.start.query)], 0, map[], next + 1)
  }

  function SubHead(t: Tried, conv: nat, next: nat): seq<Event>
    requires StartsSub(t)
  {
    [Asked(conv, t.call.name, t.call.input, t.fate.asked), Mint(next), SubTurn(next, t.call.name, t.call.input)]
  }

  lemma SubIs(t: Tried, conv: nat, grants: map<string, string>, next: nat)
    requires StartsSub(t)
    ensures var run := CallTool(t, conv, grants, next);
            run.trace == SubHead(t, conv, next) + SubRun(t, next).trace && run.next == SubRun(t, next).next
  {
    hide Loop;
  }

  lemma HeadOrderly(conv: nat, messages: seq<Message>, assistant: Message, grants: map<string, string>, next: nat)
    ensures Orderly([Request(conv, messages)] + Persisted(conv, assistant), conv, grants, next, next)
  {
  }

  lemma LastOrderly(turns: seq<Turn>, max: nat, conv: nat, messages: seq<Message>, iterations: nat,
                    grants: map<string, string>, next: nat)
    requires LastTurn(turns, max, iterations)
    ensures var run := Loop(turns, max, conv, messages, iterations, grants, next);
            Orderly(run.trace, conv, grants, next, run.next)
  {
  }

  lemma {:induction false} LoopOrderly(turns: seq<Turn>, max: nat, conv: nat, messages: seq<Message>, iterations: nat,
                                       grants: map<string, string>, next: nat)
    requires conv < next
    ensures var run := Loop(turns, max, conv, messages, iterations, grants, next);
            Orderly(run.trace, conv, grants, next, run.next)
    decreases turns
  {
    if LastTurn(turns, max, iterations) {
      LastOrderly(turns, max, conv, messages, iterations, grants, next);
    } else {
      hide OrderlyAt, Loop;
      LoopStep(turns, max, conv, messages, iterations, grants, next);
      var tried := turns[0].calls;
      var assistant := AssistantMessage(turns[0].content, CallsOf(tried));
      var head := [Request(conv, messages)] + Persisted(conv, assistant);
      var round := Calls(tried, conv, grants, next);
      CallsOrderly(tried, conv, grants, next);
      HeadOrderly(conv, messages, assistant, grants, next);
      OrderlyJoin(head, round.trace, conv, grants, next, next, round.next);
      if round.value.Some? {
        var more := messages + [assistant] + round.value.value;
        var rest := Loop(turns[1..], max, conv, more, iterations + 1, grants, round.next);
        LoopOrderly(turns[1..], max, conv, more, iterations + 1, grants, round.next);
        OrderlyJoin(head + round.trace, rest.trace, conv, grants, next, round.next, rest.next);
      }
    }
  }

  lemma {:induction false} CallsOrderly(tried: seq<Tried>, conv: nat, grants: map<string, string>, next: nat)
    requires conv < next
    ensures var run := Calls(tried, conv, grants, next);
            Orderly(run.trace, conv, grants, next, run.next)
    decreases tried
  {
    if tried != [] {
      var one := CallTool(tried[0], conv, grants, next);
      CallOrderly(tried[0], conv, grants, next);
      if one.value.Aborted? {
        OrderlyJoin(one.trace, [Append(conv, CancelledMessage(tried[0].call.id))], conv, grants, next, one.next, one.next);
      } else {
        var done := [Append(conv, ResultMessage(tried[0].call.id, one.value))];
        var rest := Calls(tried[1..], conv, grants, one.next);
        OrderlyJoin(one.trace, done, conv, grants, next, one.next, one.next);
        CallsOrderly(tried[1..], conv, grants, one.next);
        OrderlyJoin(one.trace + done, rest.trace, conv, grants, next, one.next, rest.next);
      }
    }
  }

  /** A call, with whatever it starts, requests and appends nothing in the conversation that made it. */
  lemma {:induction false} CallOrderly(t: Tried, conv: nat, grants: map<string, string>, next: nat)
    requires conv < next
    ensures var run := CallTool(t, conv, grants, next);
            Orderly(run.trace, conv, grants, next, run.next) && OnlyMinted(run.trace)
    decreases t
  {
    hide Loop;
    if StartsSub(t) {
      var start := t.fate.start;
      SubIs(t, conv, grants, next);
      LoopOrderly(start.turns, MAX_SUBTURN_ITERATIONS, next, [UserMessage(start.query)], 0, map[], next + 1);
      OrderlySub(SubHead(t, conv, next)[0], t.call, SubRun(t, next).trace, conv, grants, next, SubRun(t, next).next);
    }
  }

  /** Where the answer that permits a call or a sub-turn stands. */
  function PermitOf(trace: seq<Event>, i: nat): int
    requires i < |trace|
  {
    if trace[i].BeginCall? then i - 1 else i - 2
  }

  /** Every model-driven call and sub-turn has its own yes to its own tool and input right before it, no
      two share one, sub-turns carry no grant, and sub-runs touch only fresh conversations. */
  lemma RunsAreOrderly(turns: seq<Turn>, max: nat, conv: nat, initial: seq<Message>, grants: map<string, string>, next: nat, i: nat, j: nat)
    requires conv < next
    requires var trace := Loop(turns, max, conv, initial, 0, grants, next).trace; i < |trace| && j < |trace|
    ensures var run := Loop(turns, max, conv, initial, 0, grants, next);
            var a, b := run.trace[i], run.trace[j];
            && (a.BeginCall? || a.SubTurn? ==>
                  PermitOf(run.trace, i) >= 0 && IsYes(run.trace[PermitOf(run.trace, i)], a.tool, a.input))
            && (a.BeginCall? ==> run.trace[i - 1].conv == a.conv)
            && (a.SubTurn? ==> run.trace[i - 1] == Mint(a.conv))
            && ((a.BeginCall? || a.SubTurn?) && (b.BeginCall? || b.SubTurn?) && i != j ==>
                  PermitOf(run.trace, i) != PermitOf(run.trace, j))
            && (a.BeginCall? ==> a.grant == if a.conv == conv then Selected(grants, a.toolset) else None)
            && (a.Mint? ==> next <= a.conv < run.next && (b.Mint? && i != j ==> a.conv != b.conv))
            && (a.Append? || a.Request? ==> a.conv == conv || MintedBefore(run.trace, i, a.conv))
  {
    var run := Loop(turns, max, conv, initial, 0, grants, next);
    LoopOrderly(turns, max, conv, initial, 0, grants, next);
    assert OrderlyAt(run.trace, i, conv, grants, next, run.next);
    assert OrderlyAt(run.trace, j, conv, grants, next, run.next);
  }

  // ---- Refusals are recorded ----

  predicate IsError(m: Message) {
    m.role == "tool" && m.isError == Some(true)
  }

  /** After any other answer the call's error result or cancel marker is appended, and nothing comes between. */
  predicate RefusedAt(trace: seq<Event>, i: nat)
    requires i < |trace|
  {
    trace[i].Asked? && trace[i].answer != Result(Some(true)) ==>
      i + 1 < |trace| && trace[i + 1].Append? && trace[i + 1].conv == trace[i].conv && IsError(trace[i + 1].message)
  }

  ghost predicate Refuses(trace: seq<Event>) {
    forall i | 0 <= i < |trace| :: RefusedAt(trace, i)
  }

  lemma RefusesJoin(a: seq<Event>, b: seq<Event>)
    requires Refuses(a) && Refuses(b)
    ensures Refuses(a + b)
  {
    var t := a + b;
    forall i | 0 <= i < |t| ensures RefusedAt(t, i) {
      if i < |a| {
        assert RefusedAt(a, i);
      } else {
        assert RefusedAt(b, i - |a|);
      }
    }
  }

  lemma NoneAsked(trace: seq<Event>)
    requires forall i | 0 <= i < |trace| :: !trace[i].Asked?
    ensures Refuses(trace)
  {
  }

  lemma {:induction false} LoopRefuses(turns: seq<Turn>, max: nat, conv: nat, messages: seq<Message>, iterations: nat,
                                       grants: map<string, string>, next: nat)
    ensures Refuses(Loop(turns, max, conv, messages, iterations, grants, next).trace)
    decreases turns
  {
    if LastTurn(turns, max, iterations) {
      NoneAsked(Loop(turns, max, conv, messages, iterations, grants, next).trace);
    } else {
      hide RefusedAt, Loop;
      LoopStep(turns, max, conv, messages, iterations, grants, next);
      var tried := turns[0].calls;
      var assistant := AssistantMessage(turns[0].content, CallsOf(tried));
      var head := [Request(conv, messages)] + Persisted(conv, assistant);
      var round := Calls(tried, conv, grants, next);
      NoneAsked(head);
      CallsRefuse(tried, conv, grants, next);
      RefusesJoin(head, round.trace);
      if round.value.Some? {
        var more := messages + [assistant] + round.value.value;
        LoopRefuses(turns[1..], max, conv, more, iterations + 1, grants, round.next);
        RefusesJoin(head + round.trace, Loop(turns[1..], max, conv, more, iterations + 1, grants, round.next).trace);
      }
    }
  }

  lemma {:induction false} CallsRefuse(tried: seq<Tried>, conv: nat, grants: map<string, string>, next: nat)
    ensures Refuses(Calls(tried, conv, grants, next).trace)
    decreases tried
  {
    if tried != [] {
      var id, one := tried[0].call.id, CallTool(tried[0], conv, grants, next);
      var m := if one.value.Aborted? then CancelledMessage(id) else ResultMessage(id, one.value);
      CallRefuses(tried[0], conv, grants, next, m);
      if !one.value.Aborted? {
        CallsRefuse(tried[1..], conv, grants, one.next);
        RefusesJoin(one.trace + [Append(conv, m)], Calls(tried[1..], conv, grants, one.next).trace);
      }
    }
  }

  predicate Refused(t: Tried) {
    (t.fate.Sandboxed? || t.fate.Delegated?) && t.fate.asked != Result(Some(true))
  }

  lemma {:induction false} CallRefuses(t: Tried, conv: nat, grants: map<string, string>, next: nat, m: Message)
    requires Refused(t) ==> IsError(m)
    ensures Refuses(CallTool(t, conv, grants, next).trace + [Append(conv, m)])
    decreases t
  {
    hide Loop;
    if StartsSub(t) {
      var start := t.fate.start;
      SubIs(t, conv, grants, next);
      LoopRefuses(start.turns, MAX_SUBTURN_ITERATIONS, next, [UserMessage(start.query)], 0, map[], next + 1);
      assert Refuses(SubHead(t, conv, next));
      RefusesJoin(SubHead(t, conv, next), SubRun(t, next).trace);
      NoneAsked([Append(conv, m)]);
      RefusesJoin(SubHead(t, conv, next) + SubRun(t, next).trace, [Append(conv, m)]);
    }
  }

  /** Any answer but yes is followed at once by the error result or cancel marker of the call it was for, in the
      conversation that asked; so no call and no sub-turn comes of it. */
  lemma RefusalsRecorded(turns: seq<Turn>, max: nat, conv: nat, initial: seq<Message>, grants: map<string, string>, next: nat, i: nat)
    requires i < |Loop(turns, max, conv, initial, 0, grants, next).trace|
    ensures RefusedAt(Loop(turns, max, conv, initial, 0, grants, next).trace, i)
  {
    LoopRefuses(turns, max, conv, initial, 0, grants, next);
  }

  // ---- Requests and appends of one conversation ----

  function RequestsOf(trace: seq<Event>, conv: nat): seq<seq<Message>> {
    if trace == [] then []
    else (if trace[0].Request? && trace[0].conv == conv then [trace[0].messages] else []) + RequestsOf(trace[1..], conv)
  }

  function AppendsOf(trace: seq<Event>, conv: nat): seq<Message> {
    if trace == [] then []
    else (if trace[0].Append? && trace[0].conv == conv then [trace[0].message] else []) + AppendsOf(trace[1..], conv)
  }

  lemma {:induction false} RequestsJoin(a: seq<Event>, b: seq<Event>, conv: nat)
    ensures RequestsOf(a + b, conv) == RequestsOf(a, conv) + RequestsOf(b, conv)
    decreases |a|
  {
    if a == [] {
      assert a + b == b;
    } else {
      assert (a + b)[1..] == a[1..] + b;
      RequestsJoin(a[1..], b, conv);
    }
  }

  lemma {:induction false} AppendsJoin(a: seq<Event>, b: seq<Event>, conv: nat)
    ensures AppendsOf(a + b, conv) == AppendsOf(a, conv) + AppendsOf(b, conv)
    decreases |a|
  {
    if a == [] {
      assert a + b == b;
    } else {
      assert (a + b)[1..] == a[1..] + b;
      AppendsJoin(a[1..], b, conv);
    }
  }

  lemma OfJoin(a: seq<Event>, b: seq<Event>, conv: nat)
    ensures RequestsOf(a + b, conv) == RequestsOf(a, conv) + RequestsOf(b, conv)
    ensures AppendsOf(a + b, conv) == AppendsOf(a, conv) + AppendsOf(b, conv)
  {
    RequestsJoin(a, b, conv);
    AppendsJoin(a, b, conv);
  }

  lemma {:induction false} OfNone(trace: seq<Event>, conv: nat)
    requires forall i | 0 <= i < |trace| && (trace[i].Append? || trace[i].Request?) :: trace[i].conv != conv
    ensures RequestsOf(trace, conv) == [] && AppendsOf(trace, conv) == []
    decreases |trace|
  {
    if trace != [] {
      assert forall i | 0 <= i < |trace| - 1 :: trace[1..][i] == trace[i + 1];
      OfNone(trace[1..], conv);
    }
  }

  /** A call leaves no request and no append in the conversation that made it. */
  lemma CallSilent(t: Tried, conv: nat, grants: map<string, string>, next: nat)
    requires conv < next
    ensures var run := CallTool(t, conv, grants, next);
            RequestsOf(run.trace, conv) == [] && AppendsOf(run.trace, conv) == [] && next <= run.next
  {
    var run := CallTool(t, conv, grants, next);
    CallOrderly(t, conv, grants, next);
    forall i | 0 <= i < |run.trace| && (run.trace[i].Append? || run.trace[i].Request?) ensures run.trace[i].conv != conv {
      assert OnlyMintedAt(run.trace, i);
      var j :| 0 <= j < i && run.trace[j] == Mint(run.trace[i].conv);
      assert OrderlyAt(run.trace, j, conv, grants, next, run.next);
    }
    OfNone(run.trace, conv);
  }

  // ---- Rounds ----

  /** An assistant message with calls, and one result for each call, in order. */
  datatype Round = Round(assistant: Message, results: seq<Message>)

  predicate Answers(m: Message, call: ToolCall) {
    m.role == "tool" && m.toolCallId == Some(call.id)
  }

  predicate IsRound(r: Round) {
    && r.assistant.role == "assistant" && r.assistant.toolCalls != []
    && |r.results| == |r.assistant.toolCalls|
    && forall i | 0 <= i < |r.results| :: Answers(r.results[i], r.assistant.toolCalls[i])
  }

  function Flat(rounds: seq<Round>): seq<Message> {
    if rounds == [] then [] else [rounds[0].assistant] + rounds[0].results + Flat(rounds[1..])
  }

  ghost predicate AllRounds(rounds: seq<Round>) {
    forall i | 0 <= i < |rounds| :: IsRound(rounds[i])
  }

  /** Each request is the one before it with one more round. */
  function Requests(initial: seq<Message>, rounds: seq<Round>): (rs: seq<seq<Message>>)
    ensures |rs| == |rounds| + 1
    decreases |rounds|
  {
    if rounds == [] then [initial]
    else [initial] + Requests(initial + [rounds[0].assistant] + rounds[0].results, rounds[1..])
  }

  /** A round cut short: results for the calls before the cancelled one, a marker for it, none after. */
  predicate IsCutRound(ms: seq<Message>) {
    && |ms| >= 2 && ms[0].role == "assistant" && |ms| - 1 <= |ms[0].toolCalls|
    && (forall i | 1 <= i < |ms| :: Answers(ms[i], ms[0].toolCalls[i - 1]))
    && ms[|ms| - 1] == CancelledMessage(ms[0].toolCalls[|ms| - 2].id)
  }

  /** What the log gains after the whole rounds. */
  predicate IsClosing(ending: Ending, ms: seq<Message>) {
    match ending
    case Finished(_) => |ms| <= 1 && forall i | 0 <= i < |ms| :: ms[i].role == "assistant"
    case TokenLimit(_) => |ms| <= 1 && forall i | 0 <= i < |ms| :: ms[i].role == "assistant"
    case Stopped => ms == [] || IsCutRound(ms)
    case _ => ms == []
  }

  /** Each message is the result the script gives for its call. */
  predicate ResultsAre(ms: seq<Message>, tried: seq<Tried>, grants: map<string, string>) {
    |ms| <= |tried| && forall i | 0 <= i < |ms| :: ResultIs(ms[i], tried[i], grants)
  }

  /** Results for the calls in order: all of them, or up to a marker for the one that was cancelled. */
  predicate FitsCalls(tried: seq<Tried>, grants: map<string, string>, ms: seq<Message>, value: Option<seq<Message>>) {
    if value.Some? then value.value == ms && |ms| == |tried| && ResultsAre(ms, tried, grants)
    else
      && 0 < |ms| <= |tried| && ResultsAre(ms[..|ms| - 1], tried, grants)
      && MarkerIs(ms[|ms| - 1], tried[|ms| - 1], grants)
  }

  lemma ResultsFirst(tried: seq<Tried>, grants: map<string, string>, m: Message, ms: seq<Message>)
    requires tried != [] && ResultIs(m, tried[0], grants) && ResultsAre(ms, tried[1..], grants)
    ensures ResultsAre([m] + ms, tried, grants)
  {
    hide ResultIs;
    forall i | 0 <= i < 1 + |ms| ensures ResultIs(([m] + ms)[i], tried[i], grants) {
      if i > 0 {
        assert tried[1..][i - 1] == tried[i];
      }
    }
  }

  lemma FitsFirst(tried: seq<Tried>, grants: map<string, string>, m: Message, ms: seq<Message>, value: Option<seq<Message>>)
    requires tried != [] && ResultIs(m, tried[0], grants) && FitsCalls(tried[1..], grants, ms, value)
    ensures FitsCalls(tried, grants, [m] + ms, if value.None? then None else Some([m] + value.value))
  {
    hide ResultIs, MarkerIs;
    if value.Some? {
      ResultsFirst(tried, grants, m, ms);
    } else {
      ResultsFirst(tried, grants, m, ms[..|ms| - 1]);
      assert ([m] + ms)[..|ms|] == [m] + ms[..|ms| - 1];
      assert tried[1..][|ms| - 1] == tried[|ms|];
    }
  }

  lemma OneAppend(before: seq<Event>, m: Message, after: seq<Event>, conv: nat)
    requires RequestsOf(before, conv) == [] && AppendsOf(before, conv) == []
    ensures var trace := before + [Append(conv, m)] + after;
            RequestsOf(trace, conv) == RequestsOf(after, conv) && AppendsOf(trace, conv) == [m] + AppendsOf(after, conv)
  {
    var one := [Append(conv, m)];
    assert one[1..] == [];
    assert RequestsOf(one, conv) == [] && AppendsOf(one, conv) == [m];
    OfJoin(before, one, conv);
    OfJoin(before + one, after, conv);
  }

  lemma NothingAppended(conv: nat)
    ensures RequestsOf([], conv) == [] && AppendsOf([], conv) == []
  {
  }

  lemma MarkerFits(tried: seq<Tried>, grants: map<string, string>)
    requires tried != [] && Given(tried[0], grants).None?
    ensures FitsCalls(tried, grants, [CancelledMessage(tried[0].call.id)], None)
  {
    hide ResultIs;
    assert [CancelledMessage(tried[0].call.id)][..0] == [];
  }

  ghost predicate CallsFit(run: Run<Option<seq<Message>>>, tried: seq<Tried>, conv: nat, grants: map<string, string>, next: nat) {
    && RequestsOf(run.trace, conv) == [] && run.next >= next
    && FitsCalls(tried, grants, AppendsOf(run.trace, conv), run.value)
  }

  lemma CutCallsFit(tried: seq<Tried>, conv: nat, grants: map<string, string>, next: nat)
    requires conv < next && tried != [] && CallTool(tried[0], conv, grants, next).value.Aborted?
    ensures CallsFit(Calls(tried, conv, grants, next), tried, conv, grants, next)
  {
    hide RequestsOf, AppendsOf, ResultIs, MarkerIs, CallTool, FitsCalls, Given;
    var one := CallTool(tried[0], conv, grants, next);
    CallSilent(tried[0], conv, grants, next);
    CallGiven(tried[0], conv, grants, next);
    NothingAppended(conv);
    MarkerFits(tried, grants);
    OneAppend(one.trace, CancelledMessage(tried[0].call.id), [], conv);
    assert one.trace + [Append(conv, CancelledMessage(tried[0].call.id))] + [] ==
           one.trace + [Append(conv, CancelledMessage(tried[0].call.id))];
    assert AppendsOf(Calls(tried, conv, grants, next).trace, conv) == [CancelledMessage(tried[0].call.id)];
  }

  lemma NextCallsFit(tried: seq<Tried>, conv: nat, grants: map<string, string>, next: nat)
    requires conv < next && tried != []
    requires var one := CallTool(tried[0], conv, grants, next);
             && !one.value.Aborted?
             && CallsFit(Calls(tried[1..], conv, grants, one.next), tried[1..], conv, grants, one.next)
    ensures CallsFit(Calls(tried, conv, grants, next), tried, conv, grants, next)
  {
    hide RequestsOf, AppendsOf, ResultIs, MarkerIs, CallTool, FitsCalls, Given;
    var one := CallTool(tried[0], conv, grants, next);
    var m := ResultMessage(tried[0].call.id, one.value);
    var rest := Calls(tried[1..], conv, grants, one.next);
    CallSilent(tried[0], conv, grants, next);
    CallGiven(tried[0], conv, grants, next);
    OneAppend(one.trace, m, rest.trace, conv);
    FitsFirst(tried, grants, m, AppendsOf(rest.trace, conv), rest.value);
  }

  lemma {:induction false} CallsShape(tried: seq<Tried>, conv: nat, grants: map<string, string>, next: nat)
    requires conv < next
    ensures CallsFit(Calls(tried, conv, grants, next), tried, conv, grants, next)
    decreases tried
  {
    if tried != [] {
      hide CallTool, CallsFit, Calls;
      var one := CallTool(tried[0], conv, grants, next);
      if one.value.Aborted? {
        CutCallsFit(tried, conv, grants, next);
      } else {
        CallSilent(tried[0], conv, grants, next);
        CallsShape(tried[1..], conv, grants, one.next);
        NextCallsFit(tried, conv, grants, next);
      }
    }
  }

  // ---- The shape of a run ----

  /** The requests are the initial messages and one whole round more each time; the log gains those
      rounds and what the ending allows. */
  ghost predicate HasShape(run: Run<Ending>, conv: nat, initial: seq<Message>, rounds: seq<Round>, closing: seq<Message>) {
    && AllRounds(rounds) && IsClosing(run.value, closing)
    && RequestsOf(run.trace, conv) == Requests(initial, rounds)
    && AppendsOf(run.trace, conv) == Flat(rounds) + closing
  }

  lemma ResultsAnswer(ms: seq<Message>, tried: seq<Tried>, grants: map<string, string>)
    requires ResultsAre(ms, tried, grants)
    ensures forall i | 0 <= i < |ms| :: Answers(ms[i], tried[i].call)
  {
    forall i | 0 <= i < |ms| ensures Answers(ms[i], tried[i].call) {
      assert ResultIs(ms[i], tried[i], grants);
    }
  }

  lemma RoundFits(content: seq<Block>, tried: seq<Tried>, grants: map<string, string>, ms: seq<Message>)
    requires tried != [] && FitsCalls(tried, grants, ms, Some(ms))
    ensures IsRound(Round(AssistantMessage(content, CallsOf(tried)), ms))
  {
    hide ResultIs, MarkerIs;
    ResultsAnswer(ms, tried, grants);
  }

  lemma CutFits(content: seq<Block>, tried: seq<Tried>, grants: map<string, string>, ms: seq<Message>)
    requires FitsCalls(tried, grants, ms, None)
    ensures IsCutRound([AssistantMessage(content, CallsOf(tried))] + ms)
    ensures CutIs([AssistantMessage(content, CallsOf(tried))] + ms, content, tried, grants)
  {
    hide ResultIs, Given;
    var n, cut := |ms|, [AssistantMessage(content, CallsOf(tried))] + ms;
    ResultsAnswer(ms[..n - 1], tried, grants);
    assert MarkerIs(ms[n - 1], tried[n - 1], grants);
    hide ResultsAre;
    forall i | 1 <= i < |cut| ensures Answers(cut[i], cut[0].toolCalls[i - 1]) {
      if i < n {
        assert ms[..n - 1][i - 1] == cut[i];
      }
    }
    assert cut[1..n] == ms[..n - 1];
  }

  // ---- What the script says the rounds and the closing are ----

  /** A round with what the model said and called in this turn, and what the script gives for each call. */
  predicate RoundIs(r: Round, turn: Turn, grants: map<string, string>) {
    && turn.Answer? && AnswerIs(r.assistant, turn.content, turn.calls)
    && |r.results| == |turn.calls| && ResultsAre(r.results, turn.calls, grants)
  }

  /** The answer, results for the calls before the cancelled one, and its marker. */
  predicate CutIs(ms: seq<Message>, content: seq<Block>, tried: seq<Tried>, grants: map<string, string>) {
    && 2 <= |ms| <= |tried| + 1 && AnswerIs(ms[0], content, tried) && ResultsAre(ms[1..|ms| - 1], tried, grants)
    && MarkerIs(ms[|ms| - 1], tried[|ms| - 2], grants)
  }

  /** What the log gains from the turn that ends the run: its answer, where that ended normally or at the token limit and
      says or calls something; the cut round, where one of its calls was cancelled; else nothing. */
  ghost predicate ClosesWith(turns: seq<Turn>, max: nat, i: nat, grants: map<string, string>, closing: seq<Message>) {
    if turns == [] || !turns[0].Answer? then closing == []
    else
      var turn := turns[0];
      if RunsCalls(turn, max, i) then Cancels(turn.calls, grants) && CutIs(closing, turn.content, turn.calls, grants)
      else if (turn.stop.EndTurn? || turn.stop.MaxTokens? || (turn.stop.ToolUse? && turn.calls == [])) &&
              (turn.content != [] || turn.calls != [])
      then |closing| == 1 && AnswerIs(closing[0], turn.content, turn.calls)
      else closing == []
  }

  /** Round `k` is turn `k`, up to the turn that ends the run. */
  ghost predicate Tells(turns: seq<Turn>, max: nat, i: nat, grants: map<string, string>, rounds: seq<Round>, closing: seq<Message>) {
    && |rounds| <= |turns|
    && (forall k | 0 <= k < |rounds| :: RunsCalls(turns[k], max, i + k) && RoundIs(rounds[k], turns[k], grants))
    && ClosesWith(turns[|rounds|..], max, i + |rounds|, grants, closing)
  }

  lemma TellsFirst(turns: seq<Turn>, max: nat, i: nat, grants: map<string, string>, r: Round, rounds: seq<Round>, closing: seq<Message>)
    requires turns != [] && RunsCalls(turns[0], max, i) && RoundIs(r, turns[0], grants) && Tells(turns[1..], max, i + 1, grants, rounds, closing)
    ensures Tells(turns, max, i, grants, [r] + rounds, closing)
  {
    hide RunsCalls, RoundIs, ClosesWith;
    forall k | 0 <= k < 1 + |rounds| ensures RunsCalls(turns[k], max, i + k) && RoundIs(([r] + rounds)[k], turns[k], grants) {
      if k > 0 {
        assert turns[1..][k - 1] == turns[k] && RunsCalls(turns[1..][k - 1], max, i + 1 + (k - 1));
      }
    }
    assert turns[1..][|rounds|..] == turns[1 + |rounds|..];
  }

  lemma ShapeStep(head: seq<Event>, rest: Run<Ending>, conv: nat, initial: seq<Message>, r: Round,
                  rounds: seq<Round>, closing: seq<Message>)
    requires HasShape(rest, conv, initial + [r.assistant] + r.results, rounds, closing) && IsRound(r)
    requires RequestsOf(head, conv) == [initial] && AppendsOf(head, conv) == [r.assistant] + r.results
    ensures HasShape(Prefixed(head, rest), conv, initial, [r] + rounds, closing)
  {
    OfJoin(head, rest.trace, conv);
    assert ([r] + rounds)[1..] == rounds;
    assert forall i | 1 <= i < 1 + |rounds| :: ([r] + rounds)[i] == rounds[i - 1];
    assert [r.assistant] + r.results + (Flat(rounds) + closing) == [r.assistant] + r.results + Flat(rounds) + closing;
  }

  lemma HeadShape(conv: nat, messages: seq<Message>, assistant: Message, done: seq<Event>)
    requires AssistantAccepted(assistant) && RequestsOf(done, conv) == []
    ensures var head := [Request(conv, messages)] + Persisted(conv, assistant) + done;
            RequestsOf(head, conv) == [messages] && AppendsOf(head, conv) == [assistant] + AppendsOf(done, conv)
  {
    var asked := [Request(conv, messages)] + Persisted(conv, assistant);
    assert asked[1..] == [Append(conv, assistant)];
    OfJoin(asked, done, conv);
  }

  lemma LastShape(conv: nat, messages: seq<Message>, assistant: Message)
    ensures var trace := [Request(conv, messages)] + Persisted(conv, assistant);
            && RequestsOf(trace, conv) == [messages]
            && AppendsOf(trace, conv) == if AssistantAccepted(assistant) then [assistant] else []
    ensures RequestsOf([Request(conv, messages)], conv) == [messages] && AppendsOf([Request(conv, messages)], conv) == []
    ensures var trace := [Request(conv, messages)] + [CancelTurn(conv)];
            RequestsOf(trace, conv) == [messages] && AppendsOf(trace, conv) == []
  {
    var asked := [Request(conv, messages)];
    assert asked[1..] == [];
    OfJoin(asked, Persisted(conv, assistant), conv);
    OfJoin(asked, [CancelTurn(conv)], conv);
    assert [CancelTurn(conv)][1..] == [];
    assert AssistantAccepted(assistant) ==> Persisted(conv, assistant)[1..] == [];
  }

  lemma AnswerEnds(conv: nat, messages: seq<Message>, stop: Stop, assistant: Message, next: nat)
    requires assistant.role == "assistant"
    ensures var run := Concluded(conv, messages, stop, assistant, next);
            HasShape(run, conv, messages, [], AppendsOf(run.trace, conv))
  {
    hide RequestsOf, AppendsOf;
    LastShape(conv, messages, assistant);
    assert Requests(messages, []) == [messages] && Flat([]) == [];
  }

  lemma ConcludedAppends(conv: nat, messages: seq<Message>, stop: Stop, assistant: Message, next: nat)
    ensures AppendsOf(Concluded(conv, messages, stop, assistant, next).trace, conv) ==
            if (stop.EndTurn? || stop.MaxTokens? || (stop.ToolUse? && assistant.toolCalls == [])) && AssistantAccepted(assistant)
            then [assistant] else []
  {
    hide RequestsOf, AppendsOf;
    LastShape(conv, messages, assistant);
  }

  lemma QuietAppends(turns: seq<Turn>, max: nat, conv: nat, messages: seq<Message>, iterations: nat,
                     grants: map<string, string>, next: nat)
    requires turns == [] || !turns[0].Answer?
    ensures AppendsOf(Loop(turns, max, conv, messages, iterations, grants, next).trace, conv) == []
  {
    hide RequestsOf, AppendsOf;
    LastShape(conv, messages, AssistantMessage([], []));
  }

  lemma LastIs(turns: seq<Turn>, max: nat, conv: nat, messages: seq<Message>, iterations: nat,
               grants: map<string, string>, next: nat)
    requires LastTurn(turns, max, iterations) && turns != [] && turns[0].Answer?
    ensures Loop(turns, max, conv, messages, iterations, grants, next) ==
            Concluded(conv, messages, turns[0].stop, AssistantMessage(turns[0].content, CallsOf(turns[0].calls)), next)
  {
    hide Calls, Concluded;
  }

  lemma EndTells(turns: seq<Turn>, max: nat, conv: nat, messages: seq<Message>, iterations: nat,
                 grants: map<string, string>, next: nat)
    requires LastTurn(turns, max, iterations)
    ensures Tells(turns, max, iterations, grants, [], AppendsOf(Loop(turns, max, conv, messages, iterations, grants, next).trace, conv))
  {
    hide RequestsOf, AppendsOf, CutIs, Cancels, Loop, Concluded, Given;
    assert turns[0..] == turns;
    if turns != [] && turns[0].Answer? {
      LastIs(turns, max, conv, messages, iterations, grants, next);
      ConcludedAppends(conv, messages, turns[0].stop, AssistantMessage(turns[0].content, CallsOf(turns[0].calls)), next);
    } else {
      QuietAppends(turns, max, conv, messages, iterations, grants, next);
    }
  }

  lemma EndShape(turns: seq<Turn>, max: nat, conv: nat, messages: seq<Message>, iterations: nat,
                 grants: map<string, string>, next: nat)
    requires LastTurn(turns, max, iterations)
    ensures var run := Loop(turns, max, conv, messages, iterations, grants, next);
            HasShape(run, conv, messages, [], AppendsOf(run.trace, conv))
  {
    hide RequestsOf, AppendsOf;
    if turns != [] && turns[0].Answer? {
      AnswerEnds(conv, messages, turns[0].stop, AssistantMessage(turns[0].content, CallsOf(turns[0].calls)), next);
    } else {
      LastShape(conv, messages, AssistantMessage([], []));
      assert Requests(messages, []) == [messages] && Flat([]) == [];
    }
  }

  lemma CutShape(did: seq<Event>, next: nat, conv: nat, messages: seq<Message>, closing: seq<Message>)
    requires RequestsOf(did, conv) == [messages] && AppendsOf(did, conv) == closing && IsCutRound(closing)
    ensures HasShape(Run(did, next, Stopped), conv, messages, [], closing)
  {
    hide RequestsOf, AppendsOf, IsCutRound;
    assert Requests(messages, []) == [messages] && Flat([]) + closing == closing;
  }

  lemma {:induction false} LoopShape(turns: seq<Turn>, max: nat, conv: nat, messages: seq<Message>, iterations: nat,
                                     grants: map<string, string>, next: nat) returns (rounds: seq<Round>, closing: seq<Message>)
    requires conv < next
    ensures HasShape(Loop(turns, max, conv, messages, iterations, grants, next), conv, messages, rounds, closing)
    ensures rounds == [] || iterations + |rounds| < max
    ensures Tells(turns, max, iterations, grants, rounds, closing)
    decreases turns
  {
    rounds := [];
    var run := Loop(turns, max, conv, messages, iterations, grants, next);
    if LastTurn(turns, max, iterations) {
      EndShape(turns, max, conv, messages, iterations, grants, next);
      EndTells(turns, max, conv, messages, iterations, grants, next);
      closing := AppendsOf(run.trace, conv);
    } else {
      hide Loop, RequestsOf, AppendsOf, HasShape, IsRound, FitsCalls, IsCutRound, Tells, CutIs, RoundIs;
      LoopStep(turns, max, conv, messages, iterations, grants, next);
      var content, tried := turns[0].content, turns[0].calls;
      var assistant := AssistantMessage(content, CallsOf(tried));
      var round := Calls(tried, conv, grants, next);
      var results := AppendsOf(round.trace, conv);
      CallsShape(tried, conv, grants, next);
      HeadShape(conv, messages, assistant, round.trace);
      if round.value.None? {
        CutFits(content, tried, grants, results);
        closing := [assistant] + results;
        CutTells(turns, max, iterations, grants, closing, conv, next);
        CutShape(run.trace, round.next, conv, messages, closing);
      } else {
        RoundFits(content, tried, grants, results);
        RoundTells(turns[0], grants, results);
        var r := Round(assistant, results);
        var more := messages + [assistant] + results;
        rounds, closing := LoopShape(turns[1..], max, conv, more, iterations + 1, grants, round.next);
        var rest := Loop(turns[1..], max, conv, more, iterations + 1, grants, round.next);
        ShapeStep([Request(conv, messages)] + Persisted(conv, assistant) + round.trace, rest, conv, messages, r, rounds, closing);
        TellsFirst(turns, max, iterations, grants, r, rounds, closing);
        rounds := [r] + rounds;
      }
    }
  }

  lemma CutTells(turns: seq<Turn>, max: nat, i: nat, grants: map<string, string>, closing: seq<Message>, conv: nat, next: nat)
    requires !LastTurn(turns, max, i) && CutIs(closing, turns[0].content, turns[0].calls, grants)
    requires Calls(turns[0].calls, conv, grants, next).value.None?
    ensures Tells(turns, max, i, grants, [], closing)
  {
    hide CutIs, Cancels;
    CallsCancel(turns[0].calls, conv, grants, next);
    assert turns[0..] == turns;
  }

  lemma RoundTells(turn: Turn, grants: map<string, string>, results: seq<Message>)
    requires turn.Answer? && FitsCalls(turn.calls, grants, results, Some(results))
    ensures RoundIs(Round(AssistantMessage(turn.content, CallsOf(turn.calls)), results), turn, grants)
  {
    hide ResultIs;
  }

  lemma {:induction false} RequestAt(initial: seq<Message>, rounds: seq<Round>, k: nat)
    requires k <= |rounds|
    ensures Requests(initial, rounds)[k] == initial + Flat(rounds[..k])
    decreases |rounds|
  {
    if k == 0 {
      assert initial + [] == initial;
    } else {
      var r := rounds[0];
      RequestAt(initial + [r.assistant] + r.results, rounds[1..], k - 1);
      assert rounds[..k][1..] == rounds[1..][..k - 1];
      assert initial + [r.assistant] + r.results + Flat(rounds[1..][..k - 1]) ==
             initial + ([r.assistant] + r.results + Flat(rounds[1..][..k - 1]));
    }
  }

  /** Every request is the initial messages and whole rounds; at most `max` are made, or one; and the log
      gains those rounds and at most one closing assistant message or one round cut short by a cancel. Round `k` is what
      the model said in turn `k` with what the script gives for each of its calls, and the run ends as the script says. */
  lemma RunsHaveShape(turns: seq<Turn>, max: nat, conv: nat, initial: seq<Message>, grants: map<string, string>, next: nat)
      returns (rounds: seq<Round>, closing: seq<Message>)
    requires conv < next
    ensures var run := Loop(turns, max, conv, initial, 0, grants, next);
            var requests := RequestsOf(run.trace, conv);
            && AllRounds(rounds) && IsClosing(run.value, closing)
            && |requests| == |rounds| + 1 && |requests| <= (if max > 1 then max else 1)
            && (forall k | 0 <= k < |requests| :: requests[k] == initial + Flat(rounds[..k]))
            && AppendsOf(run.trace, conv) == Flat(rounds) + closing
            && Tells(turns, max, 0, grants, rounds, closing) && run.value == EndOf(turns, grants, max, 0)
  {
    LoopEnds(turns, max, conv, initial, 0, grants, next);
    rounds, closing := LoopShape(turns, max, conv, initial, 0, grants, next);
    forall k | 0 <= k <= |rounds| ensures Requests(initial, rounds)[k] == initial + Flat(rounds[..k]) {
      RequestAt(initial, rounds, k);
    }
  }

  // ---- Sub-runs are bounded ----

  /** No conversation but the run's own is sent more requests than a sub-turn's limit. */
  ghost predicate Small(trace: seq<Event>, root: nat) {
    forall c: nat | c != root :: |RequestsOf(trace, c)| <= MAX_SUBTURN_ITERATIONS
  }

  lemma OutsideRange(trace: seq<Event>, root: nat, grants: map<string, string>, lo: nat, hi: nat, c: nat)
    requires Orderly(trace, root, grants, lo, hi) && c != root && !(lo <= c < hi)
    ensures RequestsOf(trace, c) == []
  {
    forall i | 0 <= i < |trace| && (trace[i].Append? || trace[i].Request?) ensures trace[i].conv != c {
      assert OrderlyAt(trace, i, root, grants, lo, hi);
      if trace[i].conv != root {
        var j :| 0 <= j < i && trace[j] == Mint(trace[i].conv);
        assert OrderlyAt(trace, j, root, grants, lo, hi);
      }
    }
    OfNone(trace, c);
  }

  lemma SmallJoin(a: seq<Event>, b: seq<Event>, root: nat, grants: map<string, string>, lo: nat, mid: nat, hi: nat)
    requires Orderly(a, root, grants, lo, mid) && Orderly(b, root, grants, mid, hi) && Small(a, root) && Small(b, root)
    ensures Small(a + b, root)
  {
    forall c: nat | c != root ensures |RequestsOf(a + b, c)| <= MAX_SUBTURN_ITERATIONS {
      OfJoin(a, b, c);
      if c < mid {
        OutsideRange(b, root, grants, mid, hi, c);
      } else {
        OutsideRange(a, root, grants, lo, mid, c);
      }
    }
  }

  lemma HeadSmall(conv: nat, messages: seq<Message>, assistant: Message, next: nat, grants: map<string, string>)
    ensures var head := [Request(conv, messages)] + Persisted(conv, assistant);
            Small(head, conv) && Orderly(head, conv, grants, next, next)
  {
    HeadOrderly(conv, messages, assistant, grants, next);
    var head := [Request(conv, messages)] + Persisted(conv, assistant);
    forall c: nat | c != conv ensures |RequestsOf(head, c)| <= MAX_SUBTURN_ITERATIONS {
      OfNone(head, c);
    }
  }

  lemma {:induction false} LoopSmall(turns: seq<Turn>, max: nat, conv: nat, messages: seq<Message>, iterations: nat,
                                     grants: map<string, string>, next: nat)
    requires conv < next
    ensures Small(Loop(turns, max, conv, messages, iterations, grants, next).trace, conv)
    decreases turns
  {
    hide Orderly;
    if LastTurn(turns, max, iterations) {
      var trace := Loop(turns, max, conv, messages, iterations, grants, next).trace;
      forall c: nat | c != conv ensures |RequestsOf(trace, c)| <= MAX_SUBTURN_ITERATIONS {
        OfNone(trace, c);
      }
    } else {
      hide Loop, Small;
      LoopStep(turns, max, conv, messages, iterations, grants, next);
      var tried := turns[0].calls;
      var assistant := AssistantMessage(turns[0].content, CallsOf(tried));
      var head := [Request(conv, messages)] + Persisted(conv, assistant);
      var round := Calls(tried, conv, grants, next);
      HeadSmall(conv, messages, assistant, next, grants);
      CallsOrderly(tried, conv, grants, next);
      CallsSmall(tried, conv, grants, next);
      SmallJoin(head, round.trace, conv, grants, next, next, round.next);
      if round.value.Some? {
        var more := messages + [assistant] + round.value.value;
        var rest := Loop(turns[1..], max, conv, more, iterations + 1, grants, round.next);
        OrderlyJoin(head, round.trace, conv, grants, next, next, round.next);
        LoopOrderly(turns[1..], max, conv, more, iterations + 1, grants, round.next);
        LoopSmall(turns[1..], max, conv, more, iterations + 1, grants, round.next);
        SmallJoin(head + round.trace, rest.trace, conv, grants, next, round.next, rest.next);
      }
    }
  }

  lemma OneSmall(conv: nat, m: Message, next: nat, grants: map<string, string>)
    ensures Small([Append(conv, m)], conv) && Orderly([Append(conv, m)], conv, grants, next, next)
  {
    forall c: nat | c != conv ensures |RequestsOf([Append(conv, m)], c)| <= MAX_SUBTURN_ITERATIONS {
      OfNone([Append(conv, m)], c);
    }
  }

  lemma {:induction false} CallsSmall(tried: seq<Tried>, conv: nat, grants: map<string, string>, next: nat)
    requires conv < next
    ensures Small(Calls(tried, conv, grants, next).trace, conv)
    decreases tried
  {
    hide Orderly;
    if tried != [] {
      var one := CallTool(tried[0], conv, grants, next);
      CallOrderly(tried[0], conv, grants, next);
      CallSmall(tried[0], conv, grants, next);
      var m := if one.value.Aborted? then CancelledMessage(tried[0].call.id) else ResultMessage(tried[0].call.id, one.value);
      OneSmall(conv, m, one.next, grants);
      SmallJoin(one.trace, [Append(conv, m)], conv, grants, next, one.next, one.next);
      if !one.value.Aborted? {
        var rest := Calls(tried[1..], conv, grants, one.next);
        OrderlyJoin(one.trace, [Append(conv, m)], conv, grants, next, one.next, one.next);
        CallsOrderly(tried[1..], conv, grants, one.next);
        CallsSmall(tried[1..], conv, grants, one.next);
        SmallJoin(one.trace + [Append(conv, m)], rest.trace, conv, grants, next, one.next, rest.next);
      }
    }
  }

  lemma SubSmall(head: seq<Event>, sub: seq<Event>, conv: nat, child: nat)
    requires Small(sub, child) && |RequestsOf(sub, child)| <= MAX_SUBTURN_ITERATIONS
    requires forall i | 0 <= i < |head| :: !head[i].Append? && !head[i].Request?
    ensures Small(head + sub, conv)
  {
    forall c: nat | c != conv ensures |RequestsOf(head + sub, c)| <= MAX_SUBTURN_ITERATIONS {
      OfNone(head, c);
      RequestsJoin(head, sub, c);
    }
  }

  lemma QuietSmall(trace: seq<Event>, conv: nat)
    requires forall i | 0 <= i < |trace| :: !trace[i].Append? && !trace[i].Request?
    ensures Small(trace, conv)
  {
    forall c: nat | c != conv ensures |RequestsOf(trace, c)| <= MAX_SUBTURN_ITERATIONS {
      OfNone(trace, c);
    }
  }

  lemma QuietCall(t: Tried, conv: nat, grants: map<string, string>, next: nat)
    requires !StartsSub(t)
    ensures Small(CallTool(t, conv, grants, next).trace, conv)
  {
    hide Small;
    if t.fate.Delegated? && Judge(t.fate.asked).Yes? {
      var rest := Agent.Delegate(t.call, t.fate.start, next).trace;
      assert rest == [] || rest == [Mint(next)];
    }
    QuietSmall(CallTool(t, conv, grants, next).trace, conv);
  }

  lemma {:induction false} CallSmall(t: Tried, conv: nat, grants: map<string, string>, next: nat)
    requires conv < next
    ensures Small(CallTool(t, conv, grants, next).trace, conv)
    decreases t
  {
    hide Flat, IsClosing, AllRounds, Orderly, RequestsOf, Small, Loop, CallTool;
    if StartsSub(t) {
      var start := t.fate.start;
      SubIs(t, conv, grants, next);
      LoopSmall(start.turns, MAX_SUBTURN_ITERATIONS, next, [UserMessage(start.query)], 0, map[], next + 1);
      var rounds, closing := RunsHaveShape(start.turns, MAX_SUBTURN_ITERATIONS, next, [UserMessage(start.query)], map[], next + 1);
      SubSmall(SubHead(t, conv, next), SubRun(t, next).trace, conv, next);
    } else {
      QuietCall(t, conv, grants, next);
    }
  }

  // ---- What an approved call does ----

  /** An approved call to a sandboxed tool is begun, with its own input and the grant selected for its toolset, unless its
      input is refused or that grant is not bound; and that is all it does. */
  lemma ApprovedBegins(t: Tried, conv: nat, grants: map<string, string>, next: nat)
    requires t.fate.Sandboxed? && t.fate.asked == Result(Some(true))
    ensures var yes, run := Asked(conv, t.call.name, t.call.input, Result(Some(true))), t.fate.run;
            CallTool(t, conv, grants, next).trace ==
            if run.Begun? && !(run.toolset in grants && !run.bound)
            then [yes, BeginCall(conv, t.call.name, t.call.input, run.toolset,
                                 if run.toolset in grants then Some(grants[run.toolset]) else None)]
            else [yes]
  {
  }

  /** An approved sub-agent gets a conversation of its own and starts there with its query alone. */
  lemma ApprovedStarts(t: Tried, conv: nat, grants: map<string, string>, next: nat)
    requires t.fate.Delegated? && t.fate.asked == Result(Some(true)) && t.fate.start.Started?
    ensures [Asked(conv, t.call.name, t.call.input, Result(Some(true))), Mint(next), SubTurn(next, t.call.name, t.call.input),
             Request(next, [Message("user", [Text(t.fate.start.query)], [], None, None)])] <= CallTool(t, conv, grants, next).trace
  {
    SubIs(t, conv, grants, next);
    var start := t.fate.start;
    AsksFirst(start.turns, MAX_SUBTURN_ITERATIONS, next, [UserMessage(start.query)], 0, map[], next + 1);
  }

  lemma AsksFirst(turns: seq<Turn>, max: nat, conv: nat, messages: seq<Message>, iterations: nat, grants: map<string, string>, next: nat)
    ensures [Request(conv, messages)] <= Loop(turns, max, conv, messages, iterations, grants, next).trace
  {
    hide Calls;
  }

  // ---- Cancelling the model's turn ----

  function CancelsOf(trace: seq<Event>, conv: nat): nat {
    if trace == [] then 0 else (if trace[0] == CancelTurn(conv) then 1 else 0) + CancelsOf(trace[1..], conv)
  }

  lemma {:induction false} CancelsJoin(a: seq<Event>, b: seq<Event>, conv: nat)
    ensures CancelsOf(a + b, conv) == CancelsOf(a, conv) + CancelsOf(b, conv)
    decreases |a|
  {
    if a == [] {
      assert a + b == b;
    } else {
      assert (a + b)[1..] == a[1..] + b;
      CancelsJoin(a[1..], b, conv);
    }
  }

  lemma {:induction false} CancelsNone(trace: seq<Event>, conv: nat)
    requires forall i | 0 <= i < |trace| :: trace[i] != CancelTurn(conv)
    ensures CancelsOf(trace, conv) == 0
    decreases |trace|
  {
    if trace != [] {
      CancelsNone(trace[1..], conv);
    }
  }

  lemma CallKeepsTurn(t: Tried, conv: nat, grants: map<string, string>, next: nat)
    requires conv < next
    ensures CancelsOf(CallTool(t, conv, grants, next).trace, conv) == 0
  {
    var run := CallTool(t, conv, grants, next);
    CallOrderly(t, conv, grants, next);
    forall i | 0 <= i < |run.trace| ensures run.trace[i] != CancelTurn(conv) {
      assert OnlyMintedAt(run.trace, i);
      if run.trace[i].CancelTurn? {
        var j :| 0 <= j < i && run.trace[j] == Mint(run.trace[i].conv);
        assert OrderlyAt(run.trace, j, conv, grants, next, run.next);
      }
    }
    CancelsNone(run.trace, conv);
  }

  lemma {:induction false} CallsKeepTurn(tried: seq<Tried>, conv: nat, grants: map<string, string>, next: nat)
    requires conv < next
    ensures CancelsOf(Calls(tried, conv, grants, next).trace, conv) == 0 && Calls(tried, conv, grants, next).next >= next
    decreases tried
  {
    if tried != [] {
      hide CallTool, CancelsOf;
      var one := CallTool(tried[0], conv, grants, next);
      CallKeepsTurn(tried[0], conv, grants, next);
      CallSilent(tried[0], conv, grants, next);
      var m := if one.value.Aborted? then CancelledMessage(tried[0].call.id) else ResultMessage(tried[0].call.id, one.value);
      CancelsNone([Append(conv, m)], conv);
      CancelsJoin(one.trace, [Append(conv, m)], conv);
      if !one.value.Aborted? {
        CallsKeepTurn(tried[1..], conv, grants, one.next);
        CancelsJoin(one.trace + [Append(conv, m)], Calls(tried[1..], conv, grants, one.next).trace, conv);
      }
    }
  }

  /** The script has the wait for the model itself cancelled. */
  predicate ModelCancelled(turns: seq<Turn>, grants: map<string, string>, max: nat, i: nat)
    decreases turns
  {
    turns != [] && (turns[0].TurnCancelled? ||
                    (RunsCalls(turns[0], max, i) && !Cancels(turns[0].calls, grants) && ModelCancelled(turns[1..], grants, max, i + 1)))
  }

  /** A run cancels its model turn exactly once if the wait for the model was cancelled, and never otherwise. */
  lemma {:induction false} CancelsTurnOnce(turns: seq<Turn>, max: nat, conv: nat, messages: seq<Message>, iterations: nat,
                                           grants: map<string, string>, next: nat)
    requires conv < next
    ensures CancelsOf(Loop(turns, max, conv, messages, iterations, grants, next).trace, conv) ==
            if ModelCancelled(turns, grants, max, iterations) then 1 else 0
    decreases turns
  {
    if LastTurn(turns, max, iterations) {
      LastCancels(turns, max, conv, messages, iterations, grants, next);
    } else {
      hide Loop, CancelsOf, Calls, Cancels;
      LoopStep(turns, max, conv, messages, iterations, grants, next);
      var tried := turns[0].calls;
      var assistant := AssistantMessage(turns[0].content, CallsOf(tried));
      var head := [Request(conv, messages)] + Persisted(conv, assistant);
      var round := Calls(tried, conv, grants, next);
      CallsCancel(tried, conv, grants, next);
      CallsKeepTurn(tried, conv, grants, next);
      CancelsNone(head, conv);
      CancelsJoin(head, round.trace, conv);
      if round.value.Some? {
        var more := messages + [assistant] + round.value.value;
        CancelsTurnOnce(turns[1..], max, conv, more, iterations + 1, grants, round.next);
        CancelsJoin(head + round.trace, Loop(turns[1..], max, conv, more, iterations + 1, grants, round.next).trace, conv);
      }
    }
  }

  lemma LastCancels(turns: seq<Turn>, max: nat, conv: nat, messages: seq<Message>, iterations: nat,
                    grants: map<string, string>, next: nat)
    requires LastTurn(turns, max, iterations)
    ensures CancelsOf(Loop(turns, max, conv, messages, iterations, grants, next).trace, conv) ==
            if ModelCancelled(turns, grants, max, iterations) then 1 else 0
  {
    var trace := Loop(turns, max, conv, messages, iterations, grants, next).trace;
    if turns != [] && turns[0].TurnCancelled? {
      CancelsNone([Request(conv, messages)], conv);
      CancelsJoin([Request(conv, messages)], [CancelTurn(conv)], conv);
      assert [CancelTurn(conv)][1..] == [];
    } else {
      CancelsNone(trace, conv);
    }
  }
}
