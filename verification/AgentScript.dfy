/** What the script alone says a call comes to and a run ends in, without requests, traces or logs. */
module AgentScript {
  import opened Wrappers
  import opened Fold
  import opened Conversation
  import opened Agent

  // ---- What a call comes to ----

  datatype Said = Said(content: seq<Block>, isError: bool)

  function Complaint(text: string): Option<Said> {
    Some(Said([Text(text)], true))
  }

  /** The tool's own outcome; none if it was cancelled. */
  function Passed(o: Outcome): Option<Said> {
    match o
    case Reply(content, isError) => Some(Said(content, isError))
    case Failed(e) => Complaint("tool call error: " + e)
    case Aborted => None
  }

  /** What any answer but yes comes to. */
  function Turned(r: Relayed): Option<Said> {
    match r
    case CancelledFirst => None
    case RelayFailed(e) => Complaint("tool call error: " + e)
    case Result(_) => Complaint("The user denied this tool call. Do not retry it. Wait for the user.")
    case ResultError => Complaint("The user denied this tool call. Do not retry it. Wait for the user.")
    case TimedOut => Complaint("The user did not answer in time. This tool call was denied. Do not retry it. Wait for the user.")
    case _ => Complaint("client did not advertise `RequestToolApproval`")
  }

  /** What a sub-agent's run comes to for the call that started it. */
  function Reported(ending: Ending): Option<Said> {
    match ending
    case Finished(text) => Some(Said([Text(text)], false))
    case TokenLimit(text) => Some(Said([Text(text)], false))
    case IterationLimit => Complaint("sub-agent exceeded 16 tool iterations")
    case UnknownStop => Complaint("sub-agent stopped unexpectedly")
    case Stopped => None
    case RpcFailed(e) => Complaint("dispatch error: " + e)
    case StreamEnded(e) => Complaint("dispatch error: " + e)
  }

  function Given(t: Tried, grants: map<string, string>): Option<Said>
    decreases t
  {
    match t.fate
    case Unrouted(e) => Complaint("tool call error: " + e)
    case Direct(o) => Passed(o)
    case Sandboxed(asked, run) =>
      if asked != Result(Some(true)) then Turned(asked)
      else if run.BadInput? then Complaint("tool call error: " + run.error)
      else if run.toolset in grants && !run.bound then
        Complaint("tool call error: " + ("selected grant " + grants[run.toolset] + " is not in the " + run.toolset + " toolset grants"))
      else Passed(run.outcome)
    case Delegated(asked, start) =>
      if asked != Result(Some(true)) then Turned(asked)
      else if !start.Started? then Complaint("dispatch error: " + start.error)
      else Reported(EndOf(start.turns, map[], 16, 0))
  }

  // ---- What a run ends in ----

  /** An answer whose calls are run: it is not the last one the limit allows. */
  predicate RunsCalls(turn: Turn, max: nat, i: nat) {
    turn.Answer? && turn.stop.ToolUse? && turn.calls != [] && i + 1 < max
  }

  predicate Cancels(tried: seq<Tried>, grants: map<string, string>)
    decreases tried, 0
  {
    exists i | 0 <= i < |tried| :: Given(tried[i], grants).None?
  }

  function EndOf(turns: seq<Turn>, grants: map<string, string>, max: nat, i: nat): Ending
    decreases turns
  {
    if turns == [] then RpcFailed("")
    else
      match turns[0]
      case NoStream(e) => RpcFailed(e)
      case Broken(e) => StreamEnded(e)
      case TurnCancelled => Stopped
      case Answer(stop, content, tried) =>
        if RunsCalls(turns[0], max, i) then if Cancels(tried, grants) then Stopped else EndOf(turns[1..], grants, max, i + 1)
        else
          match stop
          case EndTurn => Finished(JoinLines(TextsOf(content)))
          case MaxTokens => TokenLimit(JoinLines(TextsOf(content)))
          case ToolUse => if tried == [] then Finished(JoinLines(TextsOf(content))) else IterationLimit
          case OtherStop => UnknownStop
  }

  // ---- The messages that say so ----

  /** The result message of a call that was not cancelled. */
  predicate ResultIs(m: Message, t: Tried, grants: map<string, string>) {
    && Given(t, grants).Some?
    && m == Message("tool", Given(t, grants).value.content, [], Some(t.call.id), if Given(t, grants).value.isError then Some(true) else None)
  }

  predicate MarkerIs(m: Message, t: Tried, grants: map<string, string>) {
    Given(t, grants).None? && m == Message("tool", [Text("tool call cancelled")], [], Some(t.call.id), Some(true))
  }

  /** An assistant message with exactly what the model said and called. */
  predicate AnswerIs(m: Message, content: seq<Block>, tried: seq<Tried>) {
    && m.role == "assistant" && m.content == content && m.toolCallId == None && m.isError == None
    && |m.toolCalls| == |tried| && forall i | 0 <= i < |tried| :: m.toolCalls[i] == tried[i].call
  }

  // ---- The loop agrees ----

  lemma {:induction false} CallGiven(t: Tried, conv: nat, grants: map<string, string>, next: nat)
    ensures var value := CallTool(t, conv, grants, next).value;
            && (value.Aborted? <==> Given(t, grants).None?)
            && (!value.Aborted? ==> ResultIs(ResultMessage(t.call.id, value), t, grants))
    decreases t
  {
    if t.fate.Delegated? && t.fate.asked == Result(Some(true)) && t.fate.start.Started? {
      var start := t.fate.start;
      LoopEnds(start.turns, MAX_SUBTURN_ITERATIONS, next, [UserMessage(start.query)], 0, map[], next + 1);
    }
  }

  lemma {:induction false} CallsCancel(tried: seq<Tried>, conv: nat, grants: map<string, string>, next: nat)
    ensures Calls(tried, conv, grants, next).value.None? <==> Cancels(tried, grants)
    decreases tried
  {
    if tried != [] {
      var one := CallTool(tried[0], conv, grants, next);
      CallGiven(tried[0], conv, grants, next);
      if !one.value.Aborted? {
        CallsCancel(tried[1..], conv, grants, one.next);
        assert forall i | 1 <= i < |tried| :: tried[i] == tried[1..][i - 1];
        assert forall i | 0 <= i < |tried| - 1 :: tried[1..][i] == tried[i + 1];
      }
    }
  }

  lemma {:induction false} LoopEnds(turns: seq<Turn>, max: nat, conv: nat, messages: seq<Message>, iterations: nat,
                                    grants: map<string, string>, next: nat)
    ensures Loop(turns, max, conv, messages, iterations, grants, next).value == EndOf(turns, grants, max, iterations)
    decreases turns
  {
    if turns != [] && RunsCalls(turns[0], max, iterations) {
      var round := Calls(turns[0].calls, conv, grants, next);
      CallsCancel(turns[0].calls, conv, grants, next);
      if round.value.Some? {
        var more := messages + [AssistantMessage(turns[0].content, CallsOf(turns[0].calls))] + round.value.value;
        LoopEnds(turns[1..], max, conv, more, iterations + 1, grants, round.next);
      }
    }
  }
}
