/** The model loop and its nesting. What the world does is an inductive script: each model request is met
    by a turn, each call in a turn by a fate, and a delegated call by the turns of its own sub-run. A run
    leaves a trace of what it did. */
module Agent {
  import opened Wrappers
  import opened Fold
  import opened Conversation

  const MAX_SUBTURN_ITERATIONS: nat := 16

  // ---- The world ----

  datatype Stop = EndTurn | MaxTokens | ToolUse | OtherStop

  /** What comes of one model request. */
  datatype Turn =
    | NoStream(error: string)
    | Broken(error: string)
    | TurnCancelled
    | Answer(stop: Stop, content: seq<Block>, calls: seq<Tried>)

  datatype Tried = Tried(call: ToolCall, fate: Fate)

  /** What comes of one tool call: no route; a tool that runs without asking; a sandboxed tool; a sub-agent. */
  datatype Fate =
    | Unrouted(error: string)
    | Direct(outcome: Outcome)
    | Sandboxed(asked: Relayed, run: RunFate)
    | Delegated(asked: Relayed, start: StartFate)

  /** What comes back from the relay for an approval request; `Result` holds the boolean the answer gives
      for `approved`, if it is a JSON object that gives one. */
  datatype Relayed =
    | NoRelay
    | CancelledFirst
    | RelayFailed(error: string)
    | Result(approved: Option<bool>)
    | ResultError
    | TimedOut
    | UnsupportedMethod
    | UnknownStream

  datatype Ask = Yes | No(content: seq<Block>) | AskCancelled | AskFailed(error: string)

  const DENIED: string := "The user denied this tool call. Do not retry it. Wait for the user."
  const NO_ANSWER: string := "The user did not answer in time. This tool call was denied. Do not retry it. Wait for the user."
  const UNADVERTISED: string := "client did not advertise `RequestToolApproval`"

  /** Only an explicit approval lets a call run. */
  function Judge(r: Relayed): (ask: Ask)
    ensures ask.Yes? <==> r == Result(Some(true))
    ensures ask.AskCancelled? <==> r.CancelledFirst?
  {
    match r
    case NoRelay => No([Text(UNADVERTISED)])
    case CancelledFirst => AskCancelled
    case RelayFailed(e) => AskFailed(e)
    case Result(approved) => if approved == Some(true) then Yes else No([Text(DENIED)])
    case ResultError => No([Text(DENIED)])
    case TimedOut => No([Text(NO_ANSWER)])
    case UnsupportedMethod => No([Text(UNADVERTISED)])
    case UnknownStream => No([Text(UNADVERTISED)])
  }

  /** An approved sandboxed call: refused over its input, or begun if its selected grant is bound. */
  datatype RunFate = BadInput(error: string) | Begun(toolset: string, bound: bool, outcome: Outcome)

  /** An approved sub-agent: refused before or after its conversation is minted, or started. */
  datatype StartFate = NotReady(error: string) | NotOpened(error: string) | Started(query: string, turns: seq<Turn>)

  datatype Outcome = Reply(content: seq<Block>, isError: bool) | Aborted | Failed(error: string)

  datatype Ending =
    | Finished(text: string)
    | TokenLimit(text: string)
    | IterationLimit
    | UnknownStop
    | Stopped
    | RpcFailed(error: string)
    | StreamEnded(error: string)

  // ---- Traces ----

  datatype Event =
    | Request(conv: nat, messages: seq<Message>)
    | Append(conv: nat, message: Message)
    | Asked(conv: nat, tool: string, input: string, answer: Relayed)
    | BeginCall(conv: nat, tool: string, input: string, toolset: string, grant: Option<string>)
    | Mint(conv: nat)
    | SubTurn(conv: nat, tool: string, input: string)
    | CancelTurn(conv: nat)

  /** What a part of a run did, the next conversation id that is free, and what it came to. */
  datatype Run<T> = Run(trace: seq<Event>, next: nat, value: T)

  // ---- Messages ----

  function CallsOf(tried: seq<Tried>): (calls: seq<ToolCall>)
    ensures |calls| == |tried| && forall i | 0 <= i < |tried| :: calls[i] == tried[i].call
  {
    seq(|tried|, i requires 0 <= i < |tried| => tried[i].call)
  }

  function AssistantMessage(content: seq<Block>, calls: seq<ToolCall>): Message {
    Message("assistant", content, calls, None, None)
  }

  function ToolMessage(id: string, content: seq<Block>, isError: bool): Message {
    Message("tool", content, [], Some(id), if isError then Some(true) else None)
  }

  function CancelledMessage(id: string): Message {
    Message("tool", [Text("tool call cancelled")], [], Some(id), Some(true))
  }

  function UserMessage(query: string): Message {
    Message("user", [Text(query)], [], None, None)
  }

  function CollectText(content: seq<Block>): string {
    JoinLines(TextsOf(content))
  }

  /** The log takes an assistant message only if it says or calls something. */
  function Persisted(conv: nat, m: Message): seq<Event> {
    if AssistantAccepted(m) then [Append(conv, m)] else []
  }

  // ---- The loop ----

  function Loop(turns: seq<Turn>, max: nat, conv: nat, messages: seq<Message>, iterations: nat,
                grants: map<string, string>, next: nat): Run<Ending>
    decreases turns
  {
    var ask := [Request(conv, messages)];
    if turns == [] then Run(ask, next, RpcFailed(""))
    else
      match turns[0]
      case NoStream(e) => Run(ask, next, RpcFailed(e))
      case Broken(e) => Run(ask, next, StreamEnded(e))
      case TurnCancelled => Run(ask + [CancelTurn(conv)], next, Stopped)
      case Answer(stop, content, tried) =>
        var assistant := AssistantMessage(content, CallsOf(tried));
        if !stop.ToolUse? || tried == [] || iterations + 1 >= max then Concluded(conv, messages, stop, assistant, next)
        else
          var round := Calls(tried, conv, grants, next);
          var trace := ask + Persisted(conv, assistant) + round.trace;
          if round.value.None? then Run(trace, round.next, Stopped)
          else
            Prefixed(trace, Loop(turns[1..], max, conv, messages + [assistant] + round.value.value, iterations + 1, grants, round.next))
  }

  /** An answer that ends the loop: it is persisted unless it stopped for an unknown reason or would
      start one round too many. */
  function Concluded(conv: nat, messages: seq<Message>, stop: Stop, assistant: Message, next: nat): Run<Ending> {
    var ask := [Request(conv, messages)];
    if stop.EndTurn? || (stop.ToolUse? && assistant.toolCalls == []) then
      Run(ask + Persisted(conv, assistant), next, Finished(CollectText(assistant.content)))
    else if stop.MaxTokens? then Run(ask + Persisted(conv, assistant), next, TokenLimit(CollectText(assistant.content)))
    else Run(ask, next, if stop.OtherStop? then UnknownStop else IterationLimit)
  }

  function Prefixed<T>(before: seq<Event>, r: Run<T>): Run<T> {
    Run(before + r.trace, r.next, r.value)
  }

  /** The calls of one answer in order, and their results; none if one was cancelled. */
  function Calls(tried: seq<Tried>, conv: nat, grants: map<string, string>, next: nat): Run<Option<seq<Message>>>
    decreases tried
  {
    if tried == [] then Run([], next, Some([]))
    else
      var id := tried[0].call.id;
      var one := CallTool(tried[0], conv, grants, next);
      if one.value.Aborted? then Run(one.trace + [Append(conv, CancelledMessage(id))], one.next, None)
      else
        var m := ResultMessage(id, one.value);
        Behind(one.trace + [Append(conv, m)], [m], Calls(tried[1..], conv, grants, one.next))
  }

  /** `r` after `before`, with its results after `done`. */
  function Behind(before: seq<Event>, done: seq<Message>, r: Run<Option<seq<Message>>>): Run<Option<seq<Message>>> {
    Run(before + r.trace, r.next, if r.value.None? then None else Some(done + r.value.value))
  }

  function ResultMessage(id: string, outcome: Outcome): Message
    requires !outcome.Aborted?
  {
    match outcome
    case Reply(content, isError) => ToolMessage(id, content, isError)
    case Failed(e) => ToolMessage(id, [Text("tool call error: " + e)], true)
  }

  function CallTool(t: Tried, conv: nat, grants: map<string, string>, next: nat): Run<Outcome>
    decreases t
  {
    match t.fate
    case Unrouted(e) => Run([], next, Failed(e))
    case Direct(outcome) => Run([], next, outcome)
    case Sandboxed(asked, run) =>
      var ask := [Asked(conv, t.call.name, t.call.input, asked)];
      if !Judge(asked).Yes? then Run(ask, next, Unapproved(Judge(asked)))
      else Prefixed(ask, Sandbox(t.call, run, conv, grants, next))
    case Delegated(asked, start) =>
      var ask := [Asked(conv, t.call.name, t.call.input, asked)];
      if !Judge(asked).Yes? then Run(ask, next, Unapproved(Judge(asked)))
      else Prefixed(ask, Delegate(t.call, start, next))
  }

  /** Without an approval a call never succeeds; only a cancel ends the turn. */
  function Unapproved(ask: Ask): (o: Outcome)
    requires !ask.Yes?
    ensures o.Aborted? <==> ask.AskCancelled?
    ensures o.Reply? ==> o.isError
  {
    match ask
    case No(content) => Reply(content, true)
    case AskCancelled => Aborted
    case AskFailed(e) => Failed(e)
  }

  /** A selected grant that is not bound refuses the call; it never runs without its grant. */
  function Sandbox(call: ToolCall, run: RunFate, conv: nat, grants: map<string, string>, next: nat): Run<Outcome> {
    match run
    case BadInput(e) => Run([], next, Failed(e))
    case Begun(toolset, bound, outcome) =>
      var grant := Selected(grants, toolset);
      if grant.Some? && !bound then
        Run([], next, Failed("selected grant " + grant.value + " is not in the " + toolset + " toolset grants"))
      else Run([BeginCall(conv, call.name, call.input, toolset, grant)], next, outcome)
  }

  /** The grant the user's message selects for a toolset. */
  function Selected(grants: map<string, string>, toolset: string): Option<string> {
    if toolset in grants then Some(grants[toolset]) else None
  }

  /** A sub-agent runs the same loop on a conversation minted for it, without grants. Its errors come
      back as results; only its cancellation is passed on. */
  function Delegate(call: ToolCall, start: StartFate, next: nat): Run<Outcome>
    decreases start
  {
    match start
    case NotReady(e) => Run([], next, DispatchError(e))
    case NotOpened(e) => Run([Mint(next)], next + 1, DispatchError(e))
    case Started(query, turns) =>
      var sub := Loop(turns, MAX_SUBTURN_ITERATIONS, next, [UserMessage(query)], 0, map[], next + 1);
      Run([Mint(next), SubTurn(next, call.name, call.input)] + sub.trace, sub.next, SubOutcome(sub.value))
  }

  function DispatchError(e: string): Outcome {
    Reply([Text("dispatch error: " + e)], true)
  }

  /** A final or truncated answer is a result, a cancel is passed on, everything else is an error result. */
  function SubOutcome(ending: Ending): (o: Outcome)
    ensures o.Aborted? <==> ending.Stopped?
    ensures !o.Failed? && (o.Reply? ==> (o.isError <==> !ending.Finished? && !ending.TokenLimit?))
  {
    match ending
    case Finished(text) => Reply([Text(text)], false)
    case TokenLimit(text) => Reply([Text(text)], false)
    case IterationLimit => Reply([Text("sub-agent exceeded 16 tool iterations")], true)
    case UnknownStop => Reply([Text("sub-agent stopped unexpectedly")], true)
    case Stopped => Aborted
    case RpcFailed(e) => DispatchError(e)
    case StreamEnded(e) => DispatchError(e)
  }

  // ---- The same, as it is run ----

  method LlmLoop(turns: seq<Turn>, max: nat, conv: nat, initial: seq<Message>, grants: map<string, string>, next: nat)
      returns (trace: seq<Event>, unused: nat, ending: Ending)
    ensures Run(trace, unused, ending) == Loop(turns, max, conv, initial, 0, grants, next)
    decreases turns, |turns| + 1
  {
    var messages := initial;
    var iterations := 0;
    trace, unused := [], next;
    var i := 0;
    assert turns[0..] == turns;
    while i < |turns|
      invariant i <= |turns|
      invariant Loop(turns, max, conv, initial, 0, grants, next) ==
                Prefixed(trace, Loop(turns[i..], max, conv, messages, iterations, grants, unused))
      decreases |turns| - i
    {
      assert turns[i..][0] == turns[i] && turns[i..][1..] == turns[i + 1..];
      var asked := [Request(conv, messages)];
      match turns[i] {
        case NoStream(e) => return trace + asked, unused, RpcFailed(e);
        case Broken(e) => return trace + asked, unused, StreamEnded(e);
        case TurnCancelled => return trace + (asked + [CancelTurn(conv)]), unused, Stopped;
        case Answer(stop, content, tried) =>
          var assistant := AssistantMessage(content, CallsOf(tried));
          if stop.EndTurn? || (stop.ToolUse? && tried == []) {
            return trace + (asked + Persisted(conv, assistant)), unused, Finished(CollectText(content));
          }
          if stop.MaxTokens? {
            return trace + (asked + Persisted(conv, assistant)), unused, TokenLimit(CollectText(content));
          }
          if stop.OtherStop? {
            return trace + asked, unused, UnknownStop;
          }
          iterations := iterations + 1;
          if iterations >= max {
            return trace + asked, unused, IterationLimit;
          }
          asked := asked + Persisted(conv, assistant);
          var did, results;
          did, unused, results := RunCalls(tried, conv, grants, unused);
          if results.None? {
            return trace + (asked + did), unused, Stopped;
          }
          messages := messages + [assistant] + results.value;
          PrefixedStep(trace, asked + did, Loop(turns[i + 1..], max, conv, messages, iterations, grants, unused));
          trace := trace + (asked + did);
      }
      i := i + 1;
    }
    assert turns[i..] == [];
    trace := trace + [Request(conv, messages)];
    ending := RpcFailed("");
  }

  lemma PrefixedStep<T>(before: seq<Event>, did: seq<Event>, r: Run<T>)
    ensures Prefixed(before, Prefixed(did, r)) == Prefixed(before + did, r)
  {
    assert before + (did + r.trace) == before + did + r.trace;
  }

  lemma BehindNothing(r: Run<Option<seq<Message>>>)
    ensures Behind([], [], r) == r
  {
    assert [] + r.trace == r.trace;
    if r.value.Some? {
      assert [] + r.value.value == r.value.value;
    }
  }

  lemma BehindStep(before: seq<Event>, done: seq<Message>, did: seq<Event>, m: Message, r: Run<Option<seq<Message>>>)
    ensures Behind(before, done, Behind(did, [m], r)) == Behind(before + did, done + [m], r)
  {
    assert before + (did + r.trace) == before + did + r.trace;
    if r.value.Some? {
      assert done + ([m] + r.value.value) == done + [m] + r.value.value;
    }
  }

  method RunCalls(tried: seq<Tried>, conv: nat, grants: map<string, string>, next: nat)
      returns (trace: seq<Event>, unused: nat, results: Option<seq<Message>>)
    ensures Run(trace, unused, results) == Calls(tried, conv, grants, next)
    decreases tried, |tried| + 1
  {
    trace, unused := [], next;
    var messages: seq<Message> := [];
    var i := 0;
    assert tried[0..] == tried;
    BehindNothing(Calls(tried, conv, grants, next));
    while i < |tried|
      invariant i <= |tried|
      invariant Calls(tried, conv, grants, next) == Behind(trace, messages, Calls(tried[i..], conv, grants, unused))
      decreases |tried| - i
    {
      assert tried[i..][0] == tried[i] && tried[i..][1..] == tried[i + 1..];
      var did, outcome;
      did, unused, outcome := RunCall(tried[i], conv, grants, unused);
      if outcome.Aborted? {
        return trace + (did + [Append(conv, CancelledMessage(tried[i].call.id))]), unused, None;
      }
      var m := ResultMessage(tried[i].call.id, outcome);
      BehindStep(trace, messages, did + [Append(conv, m)], m, Calls(tried[i + 1..], conv, grants, unused));
      trace := trace + (did + [Append(conv, m)]);
      messages := messages + [m];
      i := i + 1;
    }
    assert tried[i..] == [] && trace + [] == trace && messages + [] == messages;
    results := Some(messages);
  }

  method RunCall(t: Tried, conv: nat, grants: map<string, string>, next: nat)
      returns (trace: seq<Event>, unused: nat, outcome: Outcome)
    ensures Run(trace, unused, outcome) == CallTool(t, conv, grants, next)
    decreases t, 0
  {
    match t.fate
    case Unrouted(e) => return [], next, Failed(e);
    case Direct(o) => return [], next, o;
    case Sandboxed(asked, run) =>
      trace := [Asked(conv, t.call.name, t.call.input, asked)];
      var ask := Judge(asked);
      if !ask.Yes? {
        return trace, next, Unapproved(ask);
      }
      var r := Sandbox(t.call, run, conv, grants, next);
      return trace + r.trace, r.next, r.value;
    case Delegated(asked, start) =>
      trace := [Asked(conv, t.call.name, t.call.input, asked)];
      var ask := Judge(asked);
      if !ask.Yes? {
        return trace, next, Unapproved(ask);
      }
      if start.NotReady? {
        return trace + [], next, DispatchError(start.error);
      }
      if start.NotOpened? {
        return trace + [Mint(next)], next + 1, DispatchError(start.error);
      }
      var sub, ending;
      sub, unused, ending := LlmLoop(start.turns, MAX_SUBTURN_ITERATIONS, next, [UserMessage(start.query)], map[], next + 1);
      trace := trace + ([Mint(next), SubTurn(next, t.call.name, t.call.input)] + sub);
      outcome := SubOutcome(ending);
  }
}
