/** The conversation log: entries in memory, one record for each in the store, and views of it by scope. */
module Conversation {
  import opened Wrappers
  import opened Bytes
  import opened Fold
  import opened LineFile

  datatype ToolCall = ToolCall(id: string, name: string, input: string)

  datatype Message = Message(
    role: string, content: seq<Block>, toolCalls: seq<ToolCall>, toolCallId: Option<string>, isError: Option<bool>)

  datatype Attribution = Attribution(model: Option<string>, systemPromptSha256: Option<string>, warnings: seq<string>)

  const NO_ATTRIBUTION: Attribution := Attribution(None, None, [])

  datatype Entry = Entry(ts: string, message: Message, tag: Option<string>, attribution: Attribution)

  /** The stored form of an entry. */
  datatype LogEntry = LogEntry(
    ts: string, role: string, content: seq<Block>, toolCalls: seq<ToolCall>, toolCallId: Option<string>,
    isError: Option<bool>, tag: Option<string>, model: Option<string>, systemPromptSha256: Option<string>, warnings: seq<string>)

  // ---- Stored form ----

  function EmptiedBlock(b: Block): Block {
    if b.Picture? then Picture(b.media, "") else b
  }

  function Emptied(content: seq<Block>): (r: seq<Block>)
    ensures |r| == |content|
  {
    if content == [] then [] else Emptied(content[..|content| - 1]) + [EmptiedBlock(content[|content| - 1])]
  }

  /** Tool results lose their image bytes; every other message is stored as it is. */
  function StoredContent(m: Message): seq<Block> {
    if m.role == "tool" then Emptied(m.content) else m.content
  }

  function ToLogEntry(e: Entry): LogEntry {
    LogEntry(e.ts, e.message.role, StoredContent(e.message), e.message.toolCalls, e.message.toolCallId, e.message.isError,
             e.tag, e.attribution.model, e.attribution.systemPromptSha256, e.attribution.warnings)
  }

  function FromLogEntry(l: LogEntry): Entry {
    Entry(l.ts, Message(l.role, l.content, l.toolCalls, l.toolCallId, l.isError), l.tag,
          Attribution(l.model, l.systemPromptSha256, l.warnings))
  }

  function FromLogEntries(ls: seq<LogEntry>): (es: seq<Entry>)
    ensures |es| == |ls|
  {
    if ls == [] then [] else FromLogEntries(ls[..|ls| - 1]) + [FromLogEntry(ls[|ls| - 1])]
  }

  // ---- Scopes ----

  const DELEGATE_PREFIX: string := "delegate:"

  datatype Scope = Orchestrator | Delegate(callId: string)

  predicate InScope(e: Entry, scope: Scope) {
    match scope
    case Orchestrator => !(e.tag.Some? && DELEGATE_PREFIX <= e.tag.value)
    case Delegate(id) => e.tag == Some(DELEGATE_PREFIX + id)
  }

  function View(es: seq<Entry>, scope: Scope): seq<Message> {
    if es == [] then []
    else View(es[..|es| - 1], scope) + if InScope(es[|es| - 1], scope) then [es[|es| - 1].message] else []
  }

  method HistoryForProvider(es: seq<Entry>, scope: Scope) returns (ms: seq<Message>)
    ensures ms == View(es, scope)
  {
    ms := [];
    for i := 0 to |es|
      invariant ms == View(es[..i], scope)
    {
      assert es[..i + 1][..i] == es[..i];
      if InScope(es[i], scope) {
        ms := ms + [es[i].message];
      }
    }
    assert es[..|es|] == es;
  }

  // ---- Appends ----

  predicate PlainAccepted(m: Message) {
    m.role != "assistant"
  }

  predicate AssistantAccepted(m: Message) {
    m.role == "assistant" && (m.content != [] || m.toolCalls != [])
  }

  /** One of the two ways to append. */
  datatype Call =
    | Plain(message: Message, tag: Option<string>, ts: string)
    | Assistant(message: Message, tag: Option<string>, attribution: Attribution, ts: string)

  predicate Accepted(call: Call) {
    if call.Plain? then PlainAccepted(call.message) else AssistantAccepted(call.message)
  }

  function EntryOf(call: Call): Entry {
    Entry(call.ts, call.message, call.tag, if call.Plain? then NO_ATTRIBUTION else call.attribution)
  }

  /** The entries in memory, none if the log could not be opened; and every write to the store. */
  datatype Log = Log(memory: Option<seq<Entry>>, store: seq<Op<LogEntry>>)

  /** The entry is written first and kept in memory only if all of it got there. Nothing takes back a
      part of it that did. */
  function Appended(log: Log, call: Call, cut: Cut): Log {
    if log.memory.None? || !Accepted(call) then log
    else Log(if cut.Whole? then Some(log.memory.value + [EntryOf(call)]) else log.memory,
             log.store + [Op(ToLogEntry(EntryOf(call)), cut)])
  }

  function Rebuilt(log: Log): Log {
    var persisted := Recovered(log.store);
    log.(memory := if persisted.None? then None else Some(FromLogEntries(persisted.value)))
  }

  /** A record with everything of the message, except the bytes of a tool result's pictures. */
  ghost predicate StoredAs(l: LogEntry, ts: string, m: Message, tag: Option<string>, a: Attribution) {
    && l.ts == ts && l.role == m.role && l.toolCalls == m.toolCalls && l.toolCallId == m.toolCallId && l.isError == m.isError
    && l.tag == tag && l.model == a.model && l.systemPromptSha256 == a.systemPromptSha256 && l.warnings == a.warnings
    && |l.content| == |m.content|
    && forall i | 0 <= i < |m.content| ::
         l.content[i] == if m.role == "tool" && m.content[i].Picture? then Picture(m.content[i].media, "") else m.content[i]
  }

  lemma StoresAs(e: Entry)
    ensures StoredAs(ToLogEntry(e), e.ts, e.message, e.tag, e.attribution)
  {
    forall i | 0 <= i < |e.message.content| ensures Emptied(e.message.content)[i] == EmptiedBlock(e.message.content[i]) {
      EmptiedKeeps(e.message.content, i);
    }
  }

  /** The log over a file, whose bytes are what the writes so far left there. */
  class ConversationLog {
    const ser: LogEntry -> string
    const parse: string -> Option<LogEntry>
    var entries: seq<Entry>
    var disk: bytes
    ghost var store: seq<Op<LogEntry>>

    ghost predicate Valid()
      reads this
    {
      Codec(ser, parse) && AllFit(ser, store) && disk == Disk(ser, store)
    }

    ghost function Value(): Log
      reads this
    {
      Log(Some(entries), store)
    }

    constructor (ser: LogEntry -> string, parse: string -> Option<LogEntry>, persisted: seq<LogEntry>, disk: bytes,
                 ghost store: seq<Op<LogEntry>>)
      requires Codec(ser, parse) && AllFit(ser, store) && disk == Disk(ser, store)
      ensures Valid() && Value() == Log(Some(FromLogEntries(persisted)), store)
      ensures this.ser == ser && this.parse == parse
    {
      var es: seq<Entry> := [];
      for i := 0 to |persisted|
        invariant es == FromLogEntries(persisted[..i])
      {
        assert persisted[..i + 1][..i] == persisted[..i];
        es := es + [FromLogEntry(persisted[i])];
      }
      assert persisted[..|persisted|] == persisted;
      entries := es;
      this.ser, this.parse, this.disk, this.store := ser, parse, disk, store;
    }

    /** Opens the log over a file; fails exactly when the file cannot be read as text. */
    static method Rebuild(ser: LogEntry -> string, parse: string -> Option<LogEntry>, disk: bytes, ghost store: seq<Op<LogEntry>>)
        returns (log: Option<ConversationLog>)
      requires Codec(ser, parse) && AllFit(ser, store) && disk == Disk(ser, store)
      ensures log.Some? <==> Rebuilt(Log(None, store)).memory.Some?
      ensures log.Some? ==> fresh(log.value) && log.value.Valid() && log.value.Value() == Rebuilt(Log(None, store))
    {
      var persisted := ReadAll(parse, disk);
      ReadsBack(ser, parse, store);
      if persisted.None? {
        return None;
      }
      var l := new ConversationLog(ser, parse, persisted.value, disk, store);
      log := Some(l);
    }

    method AppendEvent(e: LogEntry, cut: Cut) returns (ok: bool)
      requires Valid() && Fits(ser, Op(e, cut))
      modifies `disk, `store
      ensures Valid() && ok == cut.Whole? && store == old(store) + [Op(e, cut)]
    {
      DiskSnoc(ser, store, Op(e, cut));
      disk := disk + Stored(ser, Op(e, cut));
      store := store + [Op(e, cut)];
      ok := cut.Whole?;
    }

    method AppendTagged(m: Message, tag: Option<string>, ts: string, cut: Cut) returns (ok: bool)
      requires Valid() && Fits(ser, Op(ToLogEntry(EntryOf(Plain(m, tag, ts))), cut))
      modifies this
      ensures Valid() && (ok <==> m.role != "assistant" && cut.Whole?)
      ensures entries == old(entries) + if ok then [Entry(ts, m, tag, Attribution(None, None, []))] else []
      ensures m.role == "assistant" ==> store == old(store)
      ensures m.role != "assistant" ==>
                && |store| == |old(store)| + 1 && store[..|old(store)|] == old(store) && store[|old(store)|].cut == cut
                && StoredAs(store[|old(store)|].record, ts, m, tag, Attribution(None, None, []))
      ensures Value() == Appended(old(Value()), Plain(m, tag, ts), cut)
    {
      if m.role == "assistant" {
        return false;
      }
      var entry := Entry(ts, m, tag, NO_ATTRIBUTION);
      var content := Redact(m);
      StoresAs(entry);
      ok := AppendEvent(ToLogEntry(entry).(content := content), cut);
      if ok {
        entries := entries + [entry];
      }
    }

    method AppendAssistantTagged(m: Message, tag: Option<string>, a: Attribution, ts: string, cut: Cut) returns (ok: bool)
      requires Valid() && Fits(ser, Op(ToLogEntry(EntryOf(Assistant(m, tag, a, ts))), cut))
      modifies this
      ensures Valid() && (ok <==> m.role == "assistant" && (m.content != [] || m.toolCalls != []) && cut.Whole?)
      ensures entries == old(entries) + if ok then [Entry(ts, m, tag, a)] else []
      ensures !(m.role == "assistant" && (m.content != [] || m.toolCalls != [])) ==> store == old(store)
      ensures m.role == "assistant" && (m.content != [] || m.toolCalls != []) ==>
                && |store| == |old(store)| + 1 && store[..|old(store)|] == old(store) && store[|old(store)|].cut == cut
                && StoredAs(store[|old(store)|].record, ts, m, tag, a)
      ensures Value() == Appended(old(Value()), Assistant(m, tag, a, ts), cut)
    {
      if m.role != "assistant" {
        return false;
      }
      if m.content == [] && m.toolCalls == [] {
        return false;
      }
      var entry := Entry(ts, m, tag, a);
      var content := Redact(m);
      StoresAs(entry);
      ok := AppendEvent(ToLogEntry(entry).(content := content), cut);
      if ok {
        entries := entries + [entry];
      }
    }

    static method Redact(m: Message) returns (content: seq<Block>)
      ensures content == StoredContent(m)
    {
      if m.role != "tool" {
        return m.content;
      }
      content := [];
      for i := 0 to |m.content|
        invariant content == Emptied(m.content[..i])
      {
        assert m.content[..i + 1][..i] == m.content[..i];
        match m.content[i]
        case Picture(media, _) => content := content + [Picture(media, "")];
        case Text(_) => content := content + [m.content[i]];
        case Other(_) => content := content + [m.content[i]];
      }
      assert m.content[..|m.content|] == m.content;
    }
  }

  // ---- Redaction ----

  function Redacted(e: Entry): Entry {
    e.(message := e.message.(content := StoredContent(e.message)))
  }

  function RedactedAll(es: seq<Entry>): (r: seq<Entry>)
    ensures |r| == |es|
  {
    if es == [] then [] else RedactedAll(es[..|es| - 1]) + [Redacted(es[|es| - 1])]
  }

  function RedactedMessages(ms: seq<Message>): seq<Message> {
    if ms == [] then []
    else RedactedMessages(ms[..|ms| - 1]) + [ms[|ms| - 1].(content := StoredContent(ms[|ms| - 1]))]
  }

  lemma {:induction false} EmptiedTwice(content: seq<Block>)
    ensures Emptied(Emptied(content)) == Emptied(content)
    decreases |content|
  {
    if content != [] {
      var init := content[..|content| - 1];
      EmptiedTwice(init);
      assert Emptied(content)[..|content| - 1] == Emptied(init);
    }
  }

  lemma RedactedTwice(e: Entry)
    ensures Redacted(Redacted(e)) == Redacted(e)
  {
    EmptiedTwice(e.message.content);
  }

  lemma {:induction false} RedactedAllTwice(es: seq<Entry>)
    ensures RedactedAll(RedactedAll(es)) == RedactedAll(es)
    decreases |es|
  {
    if es != [] {
      var init := es[..|es| - 1];
      RedactedAllTwice(init);
      RedactedTwice(es[|es| - 1]);
      assert RedactedAll(es)[..|es| - 1] == RedactedAll(init);
    }
  }

  /** Only a tool result's image bytes can change, and they only become empty. */
  lemma {:induction false} EmptiedKeeps(content: seq<Block>, i: nat)
    requires i < |content|
    ensures Emptied(content)[i] == EmptiedBlock(content[i])
    decreases |content|
  {
    if i < |content| - 1 {
      EmptiedKeeps(content[..|content| - 1], i);
    }
  }

  ghost predicate HasPictureBytes(content: seq<Block>) {
    exists i | 0 <= i < |content| :: content[i].Picture? && content[i].data != ""
  }

  lemma EmptiedSame(content: seq<Block>)
    ensures Emptied(content) == content <==> !HasPictureBytes(content)
  {
    if !HasPictureBytes(content) {
      forall i | 0 <= i < |content| ensures Emptied(content)[i] == content[i] {
        EmptiedKeeps(content, i);
      }
    } else {
      var i :| 0 <= i < |content| && content[i].Picture? && content[i].data != "";
      EmptiedKeeps(content, i);
    }
  }

  /** The store loses something of an entry exactly when it is a tool result with image bytes. */
  lemma LosesOnlyPictures(e: Entry)
    ensures FromLogEntry(ToLogEntry(e)) == e <==> !(e.message.role == "tool" && HasPictureBytes(e.message.content))
  {
    EmptiedSame(e.message.content);
  }

  // ---- Runs ----

  /** An append, which may be cut short; one during which the process dies; a clean restart. */
  datatype Step = Write(call: Call, cut: Cut) | Die(call: Call, cut: Cut) | Restart

  function Apply(log: Log, step: Step): Log {
    match step
    case Write(call, cut) => Appended(log, call, cut)
    case Die(call, cut) => Rebuilt(Appended(log, call, cut))
    case Restart => Rebuilt(log)
  }

  const EMPTY: Log := Log(Some([]), [])

  function Run(steps: seq<Step>): Log {
    if steps == [] then EMPTY else Apply(Run(steps[..|steps| - 1]), steps[|steps| - 1])
  }

  // ---- When a restart changes nothing ----

  /** Every scoped view a restart would give is the view in memory with tool-result image bytes emptied. */
  ghost predicate ViewsAgree(log: Log) {
    && log.memory.Some? && Rebuilt(log).memory.Some?
    && forall scope :: SameView(Rebuilt(log).memory.value, log.memory.value, scope)
  }

  predicate SameView(rebuilt: seq<Entry>, es: seq<Entry>, scope: Scope) {
    View(rebuilt, scope) == RedactedMessages(View(es, scope))
  }

  /** A write that makes the file and memory part ways: one cut inside a character; a successful one on an
      unfinished line; a failed one that left its record whole on a line of its own; and a failed one that
      ran into a whole record that lacked only its newline. A crash does so only by a cut inside a character. */
  predicate Harmful(log: Log, step: Step) {
    && !step.Restart? && log.memory.Some? && Accepted(step.call)
    && match step.cut
       case Broken(_, _) => true
       case Nothing => false
       case Whole => step.Write? && Tail(log.store) != []
       case NoNewline => step.Write? && (Tail(log.store) == [] || ShowsTail(log.store))
       case Part(_) => step.Write? && ShowsTail(log.store)
  }

  /** The store has, redacted, exactly what is in memory. */
  ghost predicate Mirrors(log: Log) {
    && log.memory.Some? && AllClean(log.store)
    && RedactedAll(log.memory.value) == FromLogEntries(Shown(log.store))
  }

  lemma {:induction false} ViewRedacted(es: seq<Entry>, scope: Scope)
    ensures View(RedactedAll(es), scope) == RedactedMessages(View(es, scope))
    decreases |es|
  {
    if es != [] {
      var init, last := es[..|es| - 1], es[|es| - 1];
      ViewRedacted(init, scope);
      assert RedactedAll(es)[..|es| - 1] == RedactedAll(init);
      assert InScope(Redacted(last), scope) == InScope(last, scope);
      if InScope(last, scope) {
        assert View(es, scope)[..|View(init, scope)|] == View(init, scope);
      } else {
        assert View(es, scope) == View(init, scope);
      }
    }
  }

  lemma MirrorAgrees(log: Log)
    requires Mirrors(log)
    ensures ViewsAgree(log)
  {
    forall scope ensures SameView(Rebuilt(log).memory.value, log.memory.value, scope) {
      ViewRedacted(log.memory.value, scope);
    }
  }

  // ---- Scopes partition the log ----

  function ScopeOf(e: Entry): Scope {
    if e.tag.Some? && DELEGATE_PREFIX <= e.tag.value then Delegate(e.tag.value[|DELEGATE_PREFIX|..]) else Orchestrator
  }

  /** Every entry is in exactly one scope. */
  lemma OneScope(e: Entry, scope: Scope)
    ensures InScope(e, scope) <==> scope == ScopeOf(e)
  {
    if e.tag.Some? && DELEGATE_PREFIX <= e.tag.value {
      var tag := e.tag.value;
      assert tag == DELEGATE_PREFIX + tag[|DELEGATE_PREFIX|..];
      if scope.Delegate? && InScope(e, scope) {
        assert tag[|DELEGATE_PREFIX|..] == scope.callId;
      }
    }
  }

  /** An append shows at the end of the view of its own scope, and in no other. */
  lemma AppendInScope(es: seq<Entry>, e: Entry, scope: Scope)
    ensures View(es + [e], scope) == if scope == ScopeOf(e) then View(es, scope) + [e.message] else View(es, scope)
  {
    assert (es + [e])[..|es|] == es;
    OneScope(e, scope);
  }

  lemma {:induction false} ViewGrows(es: seq<Entry>, i: nat, scope: Scope)
    requires i <= |es|
    ensures View(es[..i], scope) <= View(es, scope)
    decreases |es|
  {
    if i == |es| {
      assert es[..i] == es;
    } else {
      assert es[..|es| - 1][..i] == es[..i];
      ViewGrows(es[..|es| - 1], i, scope);
    }
  }

  /** Entry `i` shows in the view of its scope, right after the earlier entries of that scope. */
  lemma EntryShows(es: seq<Entry>, i: nat)
    requires i < |es|
    ensures View(es[..i], ScopeOf(es[i])) + [es[i].message] <= View(es, ScopeOf(es[i]))
  {
    OneScope(es[i], ScopeOf(es[i]));
    ShowsIn(es, i, ScopeOf(es[i]));
  }

  lemma ShowsIn(es: seq<Entry>, i: nat, scope: Scope)
    requires i < |es| && InScope(es[i], scope)
    ensures View(es[..i], scope) + [es[i].message] <= View(es, scope)
  {
    var next := es[..i + 1];
    assert next[..i] == es[..i] && next[i] == es[i];
    assert View(next, scope) == View(es[..i], scope) + [es[i].message];
    ViewGrows(es, i + 1, scope);
  }

  /** And every message of a view is such an entry. */
  lemma {:induction false} ShownEntry(es: seq<Entry>, scope: Scope, k: nat) returns (i: nat)
    requires k < |View(es, scope)|
    ensures i < |es| && ScopeOf(es[i]) == scope && |View(es[..i], scope)| == k && View(es, scope)[k] == es[i].message
    decreases |es|
  {
    var init := es[..|es| - 1];
    if k < |View(init, scope)| {
      i := ShownEntry(init, scope, k);
      assert init[..i] == es[..i];
    } else {
      i := |es| - 1;
      OneScope(es[i], scope);
    }
  }

  function TagScope(tag: Option<string>): Scope {
    ScopeOf(Entry("", Message("", [], [], None, None), tag, NO_ATTRIBUTION))
  }

  /** What the log can show: nothing if it could not be opened. */
  function Showing(log: Log): seq<Entry> {
    if log.memory.Some? then log.memory.value else []
  }

  /** An append under one tag leaves every other scope's view as it was. */
  lemma ElsewhereUnchanged(log: Log, call: Call, cut: Cut, scope: Scope)
    requires scope != TagScope(call.tag)
    ensures View(Showing(Appended(log, call, cut)), scope) == View(Showing(log), scope)
  {
    AppendInScope(Showing(log), EntryOf(call), scope);
  }

  predicate MayAppend(call: Call) {
    if call.Plain? then call.message.role != "assistant"
    else call.message.role == "assistant" && (call.message.content != [] || call.message.toolCalls != [])
  }

  function AttributionOf(call: Call): Attribution {
    if call.Plain? then Attribution(None, None, []) else call.attribution
  }

  /** On an open log a complete append of a message that may be appended puts exactly that message, tag, time stamp and
      attribution last in memory, last in the view of its tag's scope and in no other view, and last in the store. */
  lemma AppendPuts(log: Log, call: Call) returns (r: LogEntry)
    requires log.memory.Some? && MayAppend(call)
    ensures var t := Appended(log, call, Whole);
            var scope := if call.tag.Some? && "delegate:" <= call.tag.value then Delegate(call.tag.value[9..]) else Orchestrator;
            && t.memory == Some(log.memory.value + [Entry(call.ts, call.message, call.tag, AttributionOf(call))])
            && View(t.memory.value, scope) == View(log.memory.value, scope) + [call.message]
            && (forall other | other != scope :: View(t.memory.value, other) == View(log.memory.value, other))
            && t.store == log.store + [Op(r, Whole)] && StoredAs(r, call.ts, call.message, call.tag, AttributionOf(call))
  {
    var e := EntryOf(call);
    r := ToLogEntry(e);
    StoresAs(e);
    var scope := if call.tag.Some? && "delegate:" <= call.tag.value then Delegate(call.tag.value[9..]) else Orchestrator;
    AppendInScope(log.memory.value, e, scope);
    forall other | other != scope ensures View(log.memory.value + [e], other) == View(log.memory.value, other) {
      AppendInScope(log.memory.value, e, other);
    }
  }

  /** One that may not be appended changes nothing, and one cut short changes the store only. */
  lemma AppendLeaves(log: Log, call: Call, cut: Cut)
    ensures !MayAppend(call) ==> Appended(log, call, cut) == log
    ensures !cut.Whole? ==> Appended(log, call, cut).memory == log.memory && log.store <= Appended(log, call, cut).store
  {
  }

  // ---- One step ----

  /** Every record in the store has lost its image bytes, if it ever had any. */
  ghost predicate AllStored(store: seq<Op<LogEntry>>) {
    AllRecords(IsStored, store)
  }

  predicate IsStored(l: LogEntry) {
    Redacted(FromLogEntry(l)) == FromLogEntry(l)
  }

  lemma StoresRedacted(e: Entry)
    ensures IsStored(ToLogEntry(e)) && FromLogEntry(ToLogEntry(e)) == Redacted(e)
  {
    RedactedTwice(e);
  }

  lemma FromSnoc(ls: seq<LogEntry>, l: LogEntry)
    ensures FromLogEntries(ls + [l]) == FromLogEntries(ls) + [FromLogEntry(l)]
  {
    assert (ls + [l])[..|ls|] == ls;
  }

  lemma RedactedSnoc(es: seq<Entry>, e: Entry)
    ensures RedactedAll(es + [e]) == RedactedAll(es) + [Redacted(e)]
  {
    assert (es + [e])[..|es|] == es;
  }

  lemma {:induction false} FixedAll(ls: seq<LogEntry>)
    requires All(IsStored, ls)
    ensures RedactedAll(FromLogEntries(ls)) == FromLogEntries(ls)
    decreases |ls|
  {
    if ls != [] {
      FixedAll(ls[..|ls| - 1]);
      RedactedSnoc(FromLogEntries(ls[..|ls| - 1]), FromLogEntry(ls[|ls| - 1]));
    }
  }

  /** A restart brings memory and store together again, if the file can be read at all. */
  lemma RestartMirrors(log: Log)
    requires AllStored(log.store) && AllClean(log.store)
    ensures Mirrors(Rebuilt(log))
  {
    ShownWritten(IsStored, log.store);
    FixedAll(Shown(log.store));
  }

  lemma StepStores(log: Log, step: Step)
    requires AllStored(log.store)
    ensures AllStored(Apply(log, step).store)
  {
    if !step.Restart? {
      StoresRedacted(EntryOf(step.call));
    }
  }

  lemma WriteMirrors(log: Log, call: Call, cut: Cut)
    requires Mirrors(log) && Accepted(call) && !Harmful(log, Write(call, cut))
    ensures Mirrors(Appended(log, call, cut))
  {
    hide RedactedAll, FromLogEntries, Redacted, ToLogEntry, FromLogEntry, Shown, Committed, Tail;
    var e, op := EntryOf(call), Op(ToLogEntry(EntryOf(call)), cut);
    StoresRedacted(e);
    ShownSnoc(log.store, op);
    NotShown(log.store);
    FromSnoc(Shown(log.store), op.record);
    RedactedSnoc(log.memory.value, e);
  }

  lemma NotShown(store: seq<Op<LogEntry>>)
    ensures !ShowsTail(store) ==> Shown(store) == Committed(store)
  {
  }

  lemma CleanCrash(log: Log, call: Call, cut: Cut)
    requires AllClean(log.store) && !cut.Broken?
    ensures AllClean(Appended(log, call, cut).store)
  {
  }

  lemma HarmlessKeeps(log: Log, step: Step)
    requires Mirrors(log) && AllStored(log.store) && !Harmful(log, step)
    ensures Mirrors(Apply(log, step))
  {
    hide Mirrors, Appended;
    MirrorsOpen(log);
    match step
    case Restart => RestartMirrors(log);
    case Write(call, cut) => if Accepted(call) { WriteMirrors(log, call, cut); } else { RejectedKeeps(log, call, cut); }
    case Die(call, cut) =>
      StepStores(log, Write(call, cut));
      if Accepted(call) { CleanCrash(log, call, cut); } else { RejectedKeeps(log, call, cut); }
      RestartMirrors(Appended(log, call, cut));
  }

  lemma MirrorsOpen(log: Log)
    requires Mirrors(log)
    ensures log.memory.Some? && AllClean(log.store)
  {
  }

  lemma RejectedKeeps(log: Log, call: Call, cut: Cut)
    requires !Accepted(call)
    ensures Appended(log, call, cut) == log
  {
  }

  // ---- Harm shows ----

  lemma {:induction false} MessageCount(ms: seq<Message>)
    ensures |RedactedMessages(ms)| == |ms|
    decreases |ms|
  {
    if ms != [] {
      MessageCount(ms[..|ms| - 1]);
    }
  }

  lemma SameCount(rebuilt: seq<Entry>, es: seq<Entry>, scope: Scope)
    requires SameView(rebuilt, es, scope)
    ensures |View(rebuilt, scope)| == |View(es, scope)|
  {
    MessageCount(View(es, scope));
  }

  /** One record more shows in its own scope. */
  lemma OneMore(ls: seq<LogEntry>, l: LogEntry, scope: Scope)
    ensures |View(FromLogEntries(ls + [l]), scope)| ==
            |View(FromLogEntries(ls), scope)| + if scope == ScopeOf(FromLogEntry(l)) then 1 else 0
  {
    FromSnoc(ls, l);
    AppendInScope(FromLogEntries(ls), FromLogEntry(l), scope);
  }

  lemma ShownCount(store: seq<Op<LogEntry>>, scope: Scope)
    ensures var shown, committed := View(FromLogEntries(Shown(store)), scope), View(FromLogEntries(Committed(store)), scope);
            |shown| == |committed| + if ShowsTail(store) && scope == ScopeOf(FromLogEntry(Tail(store)[0].record)) then 1 else 0
  {
    if ShowsTail(store) {
      OneMore(Committed(store), Tail(store)[0].record, scope);
    } else {
      assert Shown(store) == Committed(store);
    }
  }

  /** The scope whose view a harmful write spoils. */
  function Spoilt(log: Log, call: Call, cut: Cut): Scope {
    if !cut.Whole? && ShowsTail(log.store) then ScopeOf(FromLogEntry(Tail(log.store)[0].record)) else ScopeOf(EntryOf(call))
  }

  lemma HarmSpoils(log: Log, call: Call, cut: Cut)
    requires ViewsAgree(log) && Harmful(log, Write(call, cut)) && !cut.Broken? && AllClean(log.store)
    ensures !ViewsAgree(Appended(log, call, cut))
  {
    var op, scope := Op(ToLogEntry(EntryOf(call)), cut), Spoilt(log, call, cut);
    var after := Appended(log, call, cut);
    SameCount(FromLogEntries(Shown(log.store)), log.memory.value, scope);
    ShownSnoc(log.store, op);
    ShownCount(log.store, scope);
    OneMore(Shown(log.store), op.record, scope);
    AppendInScope(log.memory.value, EntryOf(call), scope);
    CleanCrash(log, call, cut);
    if ViewsAgree(after) {
      assert SameView(Rebuilt(after).memory.value, after.memory.value, scope);
      SameCount(FromLogEntries(Shown(after.store)), after.memory.value, scope);
      assert false;
    }
  }

  lemma HarmShows(log: Log, step: Step)
    requires Mirrors(log) && Harmful(log, step)
    ensures !ViewsAgree(Apply(log, step))
  {
    MirrorAgrees(log);
    if step.cut.Broken? {
      var store := Appended(log, step.call, step.cut).store;
      assert !Clean(store[|store| - 1]);
    } else {
      HarmSpoils(log, step.call, step.cut);
    }
  }

  // ---- Every run ----

  lemma {:induction false} RunStores(steps: seq<Step>)
    ensures AllStored(Run(steps).store)
    decreases |steps|
  {
    if steps != [] {
      RunStores(steps[..|steps| - 1]);
      StepStores(Run(steps[..|steps| - 1]), steps[|steps| - 1]);
    }
  }

  ghost predicate NoHarm(steps: seq<Step>, from: nat) {
    forall k | from <= k < |steps| :: !Harmful(Run(steps[..k]), steps[k])
  }

  ghost predicate AgreeThroughout(steps: seq<Step>, from: nat) {
    forall k | from <= k <= |steps| :: ViewsAgree(Run(steps[..k]))
  }

  /** The log is new, or has just been read from a file that could be read. */
  predicate Opened(steps: seq<Step>, from: nat)
    requires from <= |steps|
  {
    from == 0 || (!steps[from - 1].Write? && AllClean(Run(steps[..from]).store))
  }

  lemma OpenedMirrors(steps: seq<Step>, from: nat)
    requires from <= |steps| && Opened(steps, from)
    ensures Mirrors(Run(steps[..from]))
  {
    if from > 0 {
      var init, step := steps[..from - 1], steps[from - 1];
      assert steps[..from][..from - 1] == init;
      RunStores(init);
      StepStores(Run(init), if step.Restart? then Restart else Write(step.call, step.cut));
      RestartMirrors(if step.Restart? then Run(init) else Appended(Run(init), step.call, step.cut));
    }
  }

  lemma {:induction false} HarmlessRun(steps: seq<Step>, from: nat, k: nat)
    requires from <= k <= |steps| && Opened(steps, from)
    requires forall j | from <= j < k :: !Harmful(Run(steps[..j]), steps[j])
    ensures Mirrors(Run(steps[..k]))
    decreases k
  {
    if k == from {
      OpenedMirrors(steps, from);
    } else {
      hide Mirrors, Harmful, Run;
      HarmlessRun(steps, from, k - 1);
      RunStores(steps[..k - 1]);
      RunNext(steps, k - 1);
      HarmlessKeeps(Run(steps[..k - 1]), steps[k - 1]);
    }
  }

  lemma {:induction false} FirstHarm(steps: seq<Step>, from: nat, k: nat) returns (j: nat)
    requires from <= k < |steps| && Harmful(Run(steps[..k]), steps[k])
    ensures from <= j <= k && Harmful(Run(steps[..j]), steps[j])
    ensures forall i | from <= i < j :: !Harmful(Run(steps[..i]), steps[i])
    decreases k
  {
    if i :| from <= i < k && Harmful(Run(steps[..i]), steps[i]) {
      j := FirstHarm(steps, from, i);
    } else {
      j := k;
    }
  }

  /** From when the log was opened, a restart at any moment would show every scope's view as it is, with tool-result
      image bytes emptied, if and only if no write since then was harmful. */
  lemma RebuildRefines(steps: seq<Step>, from: nat)
    requires from <= |steps| && Opened(steps, from)
    ensures AgreeThroughout(steps, from) <==> NoHarm(steps, from)
  {
    hide ViewsAgree, Harmful, Mirrors, Run, Opened;
    if NoHarm(steps, from) {
      forall k | from <= k <= |steps| ensures ViewsAgree(Run(steps[..k])) {
        HarmlessRun(steps, from, k);
        MirrorAgrees(Run(steps[..k]));
      }
    } else {
      var k :| from <= k < |steps| && Harmful(Run(steps[..k]), steps[k]);
      var j := FirstHarm(steps, from, k);
      HarmlessRun(steps, from, j);
      HarmShows(Run(steps[..j]), steps[j]);
      RunNext(steps, j);
    }
  }

  lemma RunNext(steps: seq<Step>, k: nat)
    requires k < |steps|
    ensures Run(steps[..k + 1]) == Apply(Run(steps[..k]), steps[k])
  {
    assert steps[..k + 1][..k] == steps[..k];
  }

  /** A second restart changes nothing. */
  lemma RebuildTwice(steps: seq<Step>)
    ensures Run(steps + [Restart] + [Restart]) == Run(steps + [Restart])
  {
    assert (steps + [Restart] + [Restart])[..|steps| + 1] == steps + [Restart];
    assert (steps + [Restart])[..|steps|] == steps;
  }

  // ---- Where it fails ----

  lemma ThreeSteps(a: Step, b: Step, c: Step)
    ensures Run([a, b, c]) == Apply(Apply(Apply(EMPTY, a), b), c)
  {
    hide Apply;
    assert [a, b, c][..2] == [a, b] && [a, b][..1] == [a] && [a][..0] == [];
    assert Run([a]) == Apply(Run([]), a);
    assert Run([a, b]) == Apply(Run([a]), b);
  }

  /** An append that fails half-way takes the next successful one with it: memory has it, the file does not. */
  lemma TornLosesNext(a: Call, b: Call, c: Call)
    requires Accepted(a) && Accepted(b) && Accepted(c)
    ensures var log := Run([Write(a, Whole), Write(b, Part(1)), Write(c, Whole)]);
            && log.memory == Some([EntryOf(a), EntryOf(c)])
            && Rebuilt(log).memory == Some([Redacted(EntryOf(a))])
  {
    var ra, rb, rc := ToLogEntry(EntryOf(a)), ToLogEntry(EntryOf(b)), ToLogEntry(EntryOf(c));
    ThreeSteps(Write(a, Whole), Write(b, Part(1)), Write(c, Whole));
    TornStore(ra, rb, rc);
    OneRead(EntryOf(a));
    hide Recovered, FromLogEntries;
    assert [] + [Op(ra, Whole)] + [Op(rb, Part(1))] + [Op(rc, Whole)] == [Op(ra, Whole)] + [Op(rb, Part(1))] + [Op(rc, Whole)];
    assert [] + [EntryOf(a)] + [EntryOf(c)] == [EntryOf(a), EntryOf(c)];
  }

  lemma TornStore(a: LogEntry, b: LogEntry, c: LogEntry)
    ensures Recovered([Op(a, Whole)] + [Op(b, Part(1))] + [Op(c, Whole)]) == Some([a])
  {
    CrashRecovers([Op(a, Whole)], Op(b, Part(1)), [Op(c, Whole)]);
    assert [Op(c, Whole)][1..] == [] && [Op(a, Whole)][..0] == [];
    assert Records([Op(a, Whole)]) + [] == [a];
  }

  lemma OneRead(e: Entry)
    ensures FromLogEntries([ToLogEntry(e)]) == [Redacted(e)]
  {
    FromSnoc([], ToLogEntry(e));
    assert [] + [ToLogEntry(e)] == [ToLogEntry(e)];
    StoresRedacted(e);
  }

  /** An append that lacks only its newline was refused, and is there after a restart. */
  lemma RefusedReturns(a: Call)
    requires Accepted(a)
    ensures Run([Write(a, NoNewline)]).memory == Some([])
    ensures Run([Write(a, NoNewline), Restart]).memory == Some([Redacted(EntryOf(a))])
  {
    var ra := ToLogEntry(EntryOf(a));
    var steps := [Write(a, NoNewline)];
    assert (steps + [Restart])[..1] == steps && steps[..0] == [] && steps + [Restart] == [Write(a, NoNewline), Restart];
    var store: seq<Op<LogEntry>> := [];
    assert store + [Op(ra, NoNewline)] == [Op(ra, NoNewline)];
    ShownSnoc(store, Op(ra, NoNewline));
    assert Shown(store) + [ra] == [ra];
    OneRead(EntryOf(a));
  }

  // ---- No empty assistant message ----

  predicate Sendable(m: Message) {
    m.role == "assistant" ==> m.content != [] || m.toolCalls != []
  }

  ghost predicate AllSendable(es: seq<Entry>) {
    forall i | 0 <= i < |es| :: Sendable(es[i].message)
  }

  predicate SendableRecord(l: LogEntry) {
    Sendable(FromLogEntry(l).message)
  }

  lemma {:induction false} SendableAll(ls: seq<LogEntry>)
    requires All(SendableRecord, ls)
    ensures AllSendable(FromLogEntries(ls))
    decreases |ls|
  {
    if ls != [] {
      SendableAll(ls[..|ls| - 1]);
    }
  }

  /** No run puts an assistant message with neither content nor calls into the log or the store, whatever
      else is lost or comes back. */
  lemma {:induction false} NoEmptyAssistant(steps: seq<Step>)
    ensures AllSendable(Showing(Run(steps))) && AllRecords(SendableRecord, Run(steps).store)
    decreases |steps|
  {
    if steps != [] {
      NoEmptyAssistant(steps[..|steps| - 1]);
      var log := Run(steps);
      assert AllRecords(SendableRecord, log.store);
      ShownWritten(SendableRecord, log.store);
      SendableAll(Shown(log.store));
    }
  }
}
