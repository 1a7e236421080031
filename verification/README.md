# Sycophant harness, modelled and proved

This project models the parts of the sycophant agent harness where many things happen at once or where
something must survive a crash, and proves what they promise. `dafny verify dfyconfig.toml` checks it.

- **Tool-call dispatch** (`CallQueue`, `Dispatch*`). Every `begin_call`, dial driver and receiver is a
  state machine with one step for each critical section; a run is any sequence of steps. `Dispatch` has the
  steps, `DispatchInvariant`, `DispatchLine` and `DispatchCover` what each keeps, `DispatchRuns` puts them
  together, `DispatchTheorems` says what follows for every run, `DispatchSettles` that no run gets stuck and
  `DispatchServes` what an undisturbed call gets, `DispatchBlame` what can fail one. `DispatchState` is the
  harness's own object, one method for each critical section, proved to refine the steps; `DispatchDial` ties its
  dial to them.
- **Client calls** (`Session`, `SessionTheorems`, `SessionLives`). Consumers write to the log, buffer and broadcast; subscribers
  join at any moment with a snapshot and a receiver, or replay from the log; the harness may crash.
- **The model loop** (`Agent`, `AgentScript`, `AgentTheorems`). The world is an inductive script, sub-agents included; a run
  leaves a trace. The methods run the loop as the harness does and are proved equal to the
  functions; `AgentScript` reads the same from the script alone.
- **The archive** (`Crc32` over `Register`, `Gzip`, `Octal`, `Tar`, `TarReader`, `Walk`, `Pack`). The writer,
  readers of the formats as specifications, and the round trips.
- **Durable state** (`LineFile` over `Utf8`, `Conversation`, `Registry`, `FrontmatterScan`, `Fold`). Append-only files
  under crashes, the log and its views, the registry across restarts, the frontmatter splitter and the frame fold.

## How the dispatch steps read the source

All lines are in `crates/harness/src/dispatch.rs`.

| step | critical section |
|---|---|
| Begin, Resolve | 478-507: a call with a new id looks up its key's record |
| Create, Record | 508-552: a Job is created under the call's id and recorded |
| Open, Shadow | 565-567, 282-293: the guard is parked, then the ownership shadow written |
| Enqueue, Check, Withdraw | 569-591: published, compared with the record, withdrawn if still queued |
| Unshadow, TakeBack, DropBack | 593-597, 297-307: the bookkeeping and guard of a withdrawn call |
| Spawn | 600-604 |
| Claim, FindNone | 622-628, 240-254 |
| Take | 635-643: the parked guard is taken over, or is already gone |
| Forward, Hangup | 746-865: a frame passed on; or any end without a terminal, when the guard drops |
| Forget, Bump | 663-665 |
| Evict, KeepRecord | 672-674, 399-421 |
| Drain, Scan, Seize, Erase, Fail | 311-355: retirement of every call for the tool |
| Receive, DropReceiver | the holder of the receiver |

A call's id is its row number, so ids are new by construction, and a Job has the id of the call that created it.
A bounded channel is the list of everything put in it and how much was taken.

## Where a property fails, and exactly when

- `Gzip.RoundTrip`: the empty input writes no block and cannot be read back; every other input can.
- `TarReader.RoundTrip`: an entry is read back as written exactly when its path has no NUL, is not a 101-byte path
  cut at a leading slash, and its size is below 8^11.
- `Registry.GateIsNeeded`: a rename keeps the registry sound exactly on the ids the ownership check lets through;
  `Registry.UncheckedRenameRevives` shows what happens on the others.
- `DispatchTheorems.OneHolder`: a channel lacks its terminal only if its 64 slots were full, or its receiver gone,
  when the guard dropped.
- `LineFile.ReadsBack`: a record is lost exactly when its own append was cut short, or the append before it on the
  same line was. A record cut just before its newline still reads back until the next append joins its line. A cut
  inside a character makes the whole file unreadable, although the source calls its reader tolerant:
  `LineFile.OneByteFurther`.
- `Conversation.RebuildRefines`: a restart gives back what memory had exactly as long as no write was cut inside a
  character, no successful one landed on an unfinished line, no failed one left its record whole on a line of its
  own, and no failed one ran into a record that lacked only its newline. `Conversation.TornLosesNext` and
  `Conversation.RefusedReturns` show what happens otherwise.
- `SessionTheorems.ReplayAgrees`: a replay is everything a live subscriber could hear exactly when none of the call's
  writes was lost.
- `DispatchBlame.CrossesGrants`: a retirement is for a tool and not for a Job, so a hang-up on one grant's Job fails
  calls waiting for another's.

## Model

| member | source | states |
|---|---|---|
| DispatchTheorems.NoneStranded | crates/harness/src/dispatch.rs:565-680 | in every reachable state, calls queued for a Job never outnumber its drivers yet to look plus the calls about to start one; with none of either, no queue entry names the Job |
| DispatchTheorems.OneHolder | crates/harness/src/dispatch.rs:88-121 | in every interleaving a guard is in the map, with its `begin_call` or with one driver, never two; while held its channel has no terminal, afterwards one terminal last, or a recorded reason for none |
| DispatchTheorems.AllAccountedFor | crates/harness/src/dispatch.rs:282-355 | when every call and driver has finished, all queues are empty, no guard is left, and every opened channel is closed with its end accounted for |
| DispatchTheorems.RoutedHome | crates/harness/src/dispatch.rs:485-563 | a driver only ever works on calls with the tool and grant its Job was created with; each queue entry is the call as asked for, in its own bucket, aimed at a Job of that key |
| DispatchTheorems.ClaimedInOrder | crates/harness/src/dispatch.rs:240-254 | calls for one Job are claimed in the order they were enqueued, and no call twice |
| DispatchTheorems.LeavesOnce | crates/harness/src/dispatch.rs:256-273 | how a call left the queue (claim, withdrawal, retirement) is never changed by any later step |
| DispatchTheorems.LeftIsGone | crates/harness/src/dispatch.rs:235-254 | a call that has left is in no bucket |
| DispatchTheorems.DroppedHearsNothing | crates/harness/src/dispatch.rs:88-121 | once the client of a begun call has dropped its receiver, nothing more gets into its channel in any continuation |
| DispatchRuns.EveryRunSafe | crates/harness/src/dispatch.rs:462-680 | the whole invariant (routing, queue contents and order, holders, responsibility for parked guards, channels, counts) holds after every run |
| DispatchRuns.StepSafe | crates/harness/src/dispatch.rs:180-191 | every critical section keeps it, whoever runs it and whatever came before |
| DispatchSettles.Settles | crates/harness/src/dispatch.rs:607-680 | from every reachable state some continuation without new calls finishes all calls and drivers, with everything accounted for |
| DispatchServes.UndisturbedReturns | crates/harness/src/dispatch.rs:462-605 | an undisturbed call returns queued last in its bucket, with a driver for the Job its key's record names if that may be attached to, else for a new Job that becomes the record |
| DispatchServes.OwnJobServes | crates/harness/src/dispatch.rs:615-665 | on a new Job its driver then finds this call and no other, and a receiver that keeps up is sent exactly what the dial sends: the frames of the pod, whatever its stream, closed by a failure unless it completed; afterwards no guard and no shadow of the call is left |
| DispatchServes.AttachesWarm | crates/harness/src/dispatch.rs:66-82 | a record may be attached to exactly when its pod stays inside the idle window for the whole margin to come |
| DispatchServes.KeptWarm | crates/harness/src/dispatch.rs:662-665 | after a completed serve reported at some moment, a later call of the key attaches to the same Job exactly if the Job is kept alive and the call comes less than 540 seconds after that moment |
| DispatchServes.OthersNotWarmed | crates/harness/src/dispatch.rs:425-432 | a report of activity leaves the record of every other tool or pod as it was |
| DispatchServes.RetiredRejected | crates/harness/src/dispatch.rs:569-597 | in every run a call that finds its key's record gone or naming another Job, and is still queued, is rejected: it is in no bucket, neither its guard nor its shadow is left, no driver is started, and its channel closes on a failure if there is room |
| DispatchCover.NothingLeft | crates/harness/src/dispatch.rs:622-628 | a driver that finds nothing to claim leaves no call waiting for its Job in any bucket |
| DispatchLine.FirstCome | crates/harness/src/dispatch.rs:240-254 | the entry a claim takes came before every other call still waiting for that Job, in whatever order buckets are scanned |
| DispatchState.DispatchState.EnqueueCall | crates/harness/src/dispatch.rs:225-233 | takes the maps of a state of the step machine to those after its Enqueue |
| DispatchState.DispatchState.DequeueCall | crates/harness/src/dispatch.rs:240-254 | the same for Claim, with some bucket of the tool, when it returns a call, which the driver then works on; for FindNone when it returns none |
| DispatchState.DispatchState.RemovePendingCall | crates/harness/src/dispatch.rs:259-273 | the same for Withdraw; it says whether the call goes on to undo its bookkeeping or to start a driver |
| DispatchState.DispatchState.ParkGuard | crates/harness/src/dispatch.rs:288-291 | the same for Open |
| DispatchState.DispatchState.ShadowCall | crates/harness/src/dispatch.rs:292-292 | the same for Shadow |
| DispatchState.DispatchState.TakeResultTx | crates/harness/src/dispatch.rs:297-307 | the same for TakeBack and for Take, whichever of the call and its driver comes; it says which way that one goes on |
| DispatchState.DispatchState.DrainTool | crates/harness/src/dispatch.rs:311-323 | the same for Drain: the buckets of every grant of the tool go |
| DispatchState.DispatchState.ScanShadow | crates/harness/src/dispatch.rs:331-338 | the same for Scan, and returns the ids the driver goes on with |
| DispatchState.DispatchState.SeizeGuards | crates/harness/src/dispatch.rs:339-347 | the same for Seize, and returns the guards the driver then owes a terminal each |
| DispatchState.DispatchState.EraseShadows | crates/harness/src/dispatch.rs:348-353 | the same for Erase |
| DispatchState.DispatchState.FinishCall | crates/harness/src/dispatch.rs:382-385 | the same for Unshadow of a withdrawn call and for Forget of one its driver is through with |
| DispatchState.DispatchState.SetActiveJob | crates/harness/src/dispatch.rs:394-397 | the same for Record: the new record names the Job under the id of the call |
| DispatchState.DispatchState.RemoveActiveJobNamed | crates/harness/src/dispatch.rs:399-421 | the same for Evict, with some record of the tool and name, or for KeepRecord exactly when there is none; tells a superseded tool from one without a record |
| DispatchState.DispatchState.BumpLastActivity | crates/harness/src/dispatch.rs:425-432 | the same for Bump: only records of that tool and name look active |
| DispatchState.DispatchState.Attachment | crates/harness/src/dispatch.rs:492-507 | the same for Resolve; the record it returns is the Job the call is admitted against |
| DispatchState.DispatchState.IsCurrent | crates/harness/src/dispatch.rs:581-586 | the same for Check; it says whether the call goes on to start a driver or to withdraw |
| DispatchState.DispatchState.RetireCallsForToolJob | crates/harness/src/dispatch.rs:311-355 | the four sections of a retirement in order are the run Drain, Scan, Seize, Erase, and what it returns is what the driver has left to fail |
| DispatchState.DispatchState.Conclude | crates/harness/src/dispatch.rs:662-676 | the end of a driver is a run of the step machine that leaves it done, or retiring after a failed dial whose record was there |
| DispatchState.DispatchState.constructor | crates/harness/src/dispatch.rs:196-221 | a new object has the maps of the initial state |
| DispatchState.DialAndRun | crates/harness/src/dispatch.rs:746-865 | completed exactly when some attempt connects after nothing but early misses, the pod accepts, and its stream has a terminal before any error; then the frames sent are those of the stream up to that terminal, otherwise those before the error or the end and one synthetic failure, which is all there is if the pod was not reached |
| DispatchState.Dial | crates/harness/src/dispatch.rs:757-800 | connected exactly when some attempt connects and every one before it missed early, so a cold pod is tried again until the deadline |
| DispatchState.PassFrames | crates/harness/src/dispatch.rs:847-859 | each frame of the stream as it was, in order, up to and with the first terminal, and none from an error on; says whether there was a terminal |
| DispatchState.OnlyLastTerminal | crates/harness/src/dispatch.rs:849-858 | what is passed on has at most one terminal, last |
| DispatchDial.DialRefines | crates/harness/src/dispatch.rs:746-865 | one dial run straight through is a run of the step machine: its driver's steps put exactly what the dial sends into the call's channel and end as completed exactly when the dial does |
| DispatchBlame.WhoFails | crates/harness/src/dispatch.rs:88-121 | a frame reaches a call only from the driver dialling for it, or as a synthetic failure: that driver hung up, the call was withdrawn, or a driver for the same tool had hung up on a call of its own and then evicted the record of its Job; nothing else can fail a call, in any run |
| DispatchBlame.RetiresEveryGrant | crates/harness/src/dispatch.rs:309-355 | a retirement fails every parked call of its tool, whatever its grant and its Job: guard and shadow go, and its channel gets one synthetic failure unless its 64 slots were full or its receiver gone |
| DispatchBlame.EvictsOwn | crates/harness/src/dispatch.rs:399-421 | a driver whose dial failed evicts a record only of its own tool and pod, and that one alone, and may leave the records as they are only if there is none such |
| DispatchBlame.DrainsTool | crates/harness/src/dispatch.rs:311-323 | a retirement empties the buckets of its tool, of every grant, and leaves every other bucket as it was |
| DispatchBlame.CrossesGrants | crates/harness/src/dispatch.rs:666-676 | a run in which a call with one grant is failed by a hang-up on a call with another, though its own Job and record are untouched |
| SessionTheorems.AwaitExact | crates/harness/src/tool_router.rs:929-978 | for a subscriber joining at any moment, reading its snapshot and then its own receiver: a gap-free, duplicate-free part of the frames in the call's buffer, then one terminal, last; its own only after the whole sequence, a synthetic failure only when the broadcast closed without one or it fell more than 256 behind |
| SessionTheorems.AlwaysEnds | crates/harness/src/tool_router.rs:957-977 | a subscriber of a retired call always has a next step, unless another one is about to join |
| SessionTheorems.ComesToEnd | crates/harness/src/tool_router.rs:957-977 | and some steps of its own bring its stream to its end |
| SessionTheorems.AskAnswers | crates/harness/src/tool_router.rs:929-981 | after every run a client that asks for a call is told it was never issued exactly when fewer were begun, is sent to the log exactly when the call was retired or lost, and is otherwise let in |
| SessionTheorems.FollowedLive | crates/harness/src/tool_router.rs:930-977 | from every reachable state a client that asks for a call that is not gone, and joins, is sent the whole buffer, however late it comes; it is through exactly if that ends in a terminal |
| SessionTheorems.NextFrameHeard | crates/harness/src/tool_router.rs:781-793 | and the next frame of the call reaches it too, whatever became of its write |
| SessionLives.CallLives | crates/harness/src/tool_router.rs:738-802 | from every reachable state a call is begun and what arrives for it is consumed: its buffer is that up to the first terminal, the log has one write for each recorded frame, and it is retired however it came to its end; no other call, subscriber or write is touched |
| SessionLives.ReplayedOnceGone | crates/harness/src/tool_router.rs:981-1024 | from every reachable state a client that asks for a call that is gone is sent what can be read of its writes, closed by a failure if need be, or told that there is nothing |
| SessionLives.CrashEnds | crates/harness/src/tool_router.rs:990-1001 | a crash ends every stream and every call where it is: in every continuation none of these streams gains a frame and none of these calls is live again, while ended streams and the log stay as they were |
| SessionTheorems.PersistedFirst | crates/harness/src/tool_router.rs:773-793 | what a live subscriber was sent was written to the log before, which is at most one record ahead of what was published; and it can be read there as long as no write was lost |
| SessionTheorems.ReplayAgrees | crates/harness/src/tool_router.rs:990-1024 | a replay, also after a crash, is what can be read of the call's writes, closed by a failure if it has no terminal; it is everything published and the frame held at a crash, without images and empty frames, exactly when none of its writes was lost |
| SessionTheorems.Survivors | crates/harness/src/execution_log.rs:270-345 | all of a call's writes can be read exactly when none was cut short, none landed on an unfinished line, and none that lacked its newline was run into by a later one; fewer otherwise |
| SessionTheorems.ReplayedAfterCrash | crates/harness/src/tool_router.rs:981-1024 | from every reachable state, after a crash a client that asks for a call is sent what can be read of its writes, closed by a failure if need be |
| SessionTheorems.SameResult | crates/harness/src/execution_log.rs:36-79 | folding what a live subscriber heard to the end and what a replay without lost writes gave yields the same text and error bit |
| SessionTheorems.Consume | crates/harness/src/tool_router.rs:772-798 | a toolset call's consumer publishes a prefix of what arrives, all of it or up to the first terminal, and writes each of these frames, images and empty ones aside, once to its own call's log and nothing to another's |
| SessionTheorems.Follow | crates/harness/src/tool_router.rs:940-977 | a subscriber's task sends a prefix of snapshot and fan-out that ends in their first terminal, or all of both and one synthetic failure when they have none |
| SessionTheorems.RuntimeFrames | crates/harness/src/tool_router.rs:898-914 | a runtime call's frames have one terminal, last, so the two consumers publish alike |
| Session.EveryRunKeeps | crates/harness/src/tool_router.rs:738-802 | after every run, crashes included: what a follower was sent, the rest of its snapshot and what its receiver has still to read make up the buffer; the writes to the log are those of each call; every ended stream is what its call allows |
| Session.ReadRecords | crates/harness/src/execution_log.rs:303-345 | the records of one call, in order, out of a log shared by many; none when there are none |
| Session.ErasedTerminal | crates/harness/src/execution_log.rs:147-155 | a persisted record ends in a terminal exactly when the live sequence did |
| AgentTheorems.RunsHaveShape | crates/harness/src/agent.rs:184-338 | every request is the initial messages plus whole rounds, at most max(1, limit) are made, and the log gains those rounds plus at most one closing assistant message, or one round cut short by a cancel. By the script: round k is turn k's content and calls and for each call the result it came to there; the closing message is there exactly when the last turn ended normally or at the token limit and says or calls something; the run's ending and its text are those of that turn |
| AgentTheorems.RunsAreOrderly | crates/harness/src/tool_router.rs:522-568 | to any depth every begun call and sub-turn directly follows an answer of yes to its own tool and input, no two share one, calls in sub-turns carry no grant and those of the run exactly the selected one, minted ids are new, and nothing but the run's own and freshly minted conversations is touched |
| AgentTheorems.RefusalsRecorded | crates/harness/src/tool_router.rs:530-553 | to any depth every other answer is followed at once by the error result or cancel marker of the call it was for, in the conversation that asked, so nothing comes of it |
| AgentTheorems.CallSilent | crates/harness/src/runtime_tools.rs:511-594 | a tool call, with any sub-runs it starts, neither requests nor appends in the conversation that made it |
| AgentTheorems.LoopSmall | crates/harness/src/runtime_tools.rs:573-594 | in a run of any depth no sub-conversation is sent more than 16 requests |
| AgentTheorems.LoopOrderly | crates/harness/src/agent.rs:141-338 | every trace of the loop is orderly in that sense |
| AgentTheorems.CallOrderly | crates/harness/src/runtime_tools.rs:435-627 | so is every trace of one call, and its requests and appends go only to conversations minted in it |
| AgentTheorems.CallsShape | crates/harness/src/agent.rs:263-327 | the calls of one answer leave one result each in order, or results up to a marker for the cancelled one; each has the content and error bit the script gives for its call |
| AgentScript.CallGiven | crates/harness/src/tool_router.rs:502-585 | what a call comes to, by its fate in the script: the reply of its tool, a refusal with the relay's reason, the text `tool call error:` and the error, an unbound grant, the final text of a sub-run or the error in its place; a marker exactly when it is cancelled |
| AgentScript.CallsCancel | crates/harness/src/agent.rs:263-327 | the calls of an answer are cut short exactly when the script cancels one of them, to any depth of sub-runs |
| AgentScript.LoopEnds | crates/harness/src/agent.rs:184-338 | how a run ends and with what text, by the script: its first turn that is not a whole round decides, or the iteration limit |
| AgentTheorems.ApprovedBegins | crates/harness/src/tool_router.rs:522-568 | an approved call to a sandboxed tool is begun with its own input and the grant selected for its toolset, exactly unless its input is refused or that grant is not bound, and does nothing else |
| AgentTheorems.ApprovedStarts | crates/harness/src/runtime_tools.rs:511-594 | an approved delegation starts a sub-run on a new conversation whose first request is the query alone |
| AgentTheorems.CancelsTurnOnce | crates/harness/src/agent.rs:184-338 | a run cancels its model turn exactly once if the wait for the model was cancelled, and never otherwise |
| Agent.LlmLoop | crates/harness/src/agent.rs:141-338 | the loop as run equals the function its theorems are about |
| Agent.RunCalls | crates/harness/src/agent.rs:263-327 | the calls of one answer, in order, stopping at a cancelled one; what each result holds is `AgentTheorems.CallsShape` |
| Agent.RunCall | crates/harness/src/tool_router.rs:502-585 | one call by its route: refused, begun, delegated or run directly |
| Agent.Judge | crates/harness/src/tool_approval.rs:30-72 | only an explicit `approved: true` approves, and only a cancel aborts |
| Agent.Unapproved | crates/harness/src/tool_router.rs:530-553 | without an approval a call never succeeds, and only a cancel ends the turn |
| Agent.SubOutcome | crates/harness/src/runtime_tools.rs:596-627 | a delegated turn gives a success exactly on a final or truncated answer, is passed on as a cancel exactly when cancelled, and is an error result otherwise |
| LineFile.ReadsBack | crates/harness/src/conversation.rs:215-263 | whatever appends were cut short, at whatever byte, the file reads back as exactly the records written whole on a line of their own, in order, and one at the end that lacks only its newline; unless a cut went through a character, when nothing reads back |
| LineFile.OneCrash | crates/harness/src/execution_log.rs:270-345 | one cut append costs itself and the record directly after it, and nothing earlier or later; but everything, if it went through a character |
| LineFile.LossBound | crates/harness/src/conversation.rs:246-257 | however many crashes, each costs at most two records, if none went through a character |
| LineFile.ReadAll | crates/harness/src/conversation.rs:234-263 | the reader decodes the whole file, or fails, and then keeps the lines that parse, in order |
| LineFile.LineEnds | crates/harness/src/conversation.rs:219-231 | a complete append ends the line it lands on and is read back exactly if that line was empty |
| LineFile.CodecsExist | crates/harness/src/conversation.rs:219-221 | the assumptions made about serialized records can be met |
| LineFile.OneByteFurther | crates/harness/src/conversation.rs:237-241 | a file in which a cut between characters costs one record and a cut one byte further on costs all of them |
| Utf8.RoundTrip | crates/harness/src/conversation.rs:237-241 | the strict decoder of section 3 of RFC 3629 reads encoded text back |
| Utf8.KnownEncodings | crates/harness/src/conversation.rs:237-241 | characters of one to four bytes, byte by byte |
| Utf8.PartSpoils | crates/harness/src/conversation.rs:237-241 | and refuses a whole file over one unfinished character |
| Conversation.RebuildRefines | crates/harness/src/conversation.rs:560-583 | over every run of appends that succeed, fail part way or are cut off by a crash, and restarts: from when the log was opened, a restart at any moment would show every scope's view as it is in memory, tool-result image bytes emptied, if and only if no write since then was harmful |
| Conversation.RestartMirrors | crates/harness/src/conversation.rs:560-583 | a restart brings memory and store together again whenever the file can be read |
| Conversation.TornLosesNext | crates/harness/src/conversation.rs:219-231 | a run in which an append that fails half-way takes the next successful one with it |
| Conversation.RefusedReturns | crates/harness/src/conversation.rs:219-231 | a run in which a refused append is there after a restart |
| Conversation.RebuildTwice | crates/harness/src/conversation.rs:560-583 | a second restart changes nothing |
| Conversation.EntryShows | crates/harness/src/conversation.rs:687-693 | an entry shows in the view of its scope directly after the earlier ones of that scope |
| Conversation.ShownEntry | crates/harness/src/conversation.rs:687-693 | and every message of a view is such an entry |
| Conversation.OneScope | crates/harness/src/conversation.rs:493-503 | every entry is in exactly one scope |
| Conversation.ElsewhereUnchanged | crates/harness/src/conversation.rs:588-645 | an append under one tag leaves every other scope's view as it was |
| Conversation.AppendPuts | crates/harness/src/conversation.rs:588-645 | on every open log a complete append of an acceptable message puts it, with its tag, time stamp and attribution, last in memory, last in the view of its tag's scope and in no other, and last in the store with only a tool result's picture bytes emptied |
| Conversation.AppendLeaves | crates/harness/src/conversation.rs:593-629 | and one that is not acceptable leaves log and store as they were; one cut short leaves memory |
| Conversation.NoEmptyAssistant | crates/harness/src/conversation.rs:613-645 | no run puts an assistant message with neither content nor calls into the log or the store, whatever else is lost or comes back |
| Conversation.EmptiedKeeps | crates/harness/src/conversation.rs:695-717 | redaction changes nothing but a picture's bytes, which become empty |
| Conversation.LosesOnlyPictures | crates/harness/src/conversation.rs:695-717 | an entry comes back from the store changed exactly when it is a tool result with picture bytes |
| Conversation.HistoryForProvider | crates/harness/src/conversation.rs:687-693 | the messages of one scope, in order |
| Conversation.ConversationLog.AppendTagged | crates/harness/src/conversation.rs:588-608 | succeeds exactly for a message of any role but `assistant` that was written whole; memory then gains exactly that message, tag and time stamp without attribution, and the store one record of it with only a tool result's picture bytes emptied; a cut write leaves its part there and nothing in memory |
| Conversation.ConversationLog.AppendAssistantTagged | crates/harness/src/conversation.rs:618-645 | succeeds exactly for a message of role `assistant` with content or calls that was written whole; otherwise the same, with its attribution |
| Conversation.ConversationLog.Rebuild | crates/harness/src/conversation.rs:560-583 | the log in memory is what the bytes of the file read back as; there is none exactly when they are not text |
| Conversation.ConversationLog.Redact | crates/harness/src/conversation.rs:695-714 | the stored content of a message |
| Registry.OwnersKept | crates/harness/src/registry.rs:178-214 | over every run of mints, renames, deletes, failed writes, crashes and restarts, a known id has its mint owner and every sidecar says what memory says |
| Registry.NamesKept | crates/harness/src/registry.rs:197-214 | over every such run a known id has the name of its last rename that reached the disk, or of its mint if there was none |
| Registry.ListedUntilDeleted | crates/harness/src/registry.rs:178-268 | from a mint that reached the disk until a deletion of it is tried the id is in its owner's list and no other's; after a deletion that succeeded it is in nobody's |
| Registry.ListsOwn | crates/harness/src/registry.rs:260-268 | an owner's list is what they minted less what was deleted; only ids whose deletion failed part way may be in it or not |
| Registry.DeletedForGood | crates/harness/src/registry.rs:219-232 | once deleted an id is never known again, in memory or on disk; once minted it is never another's |
| Registry.RestartChangesNothing | crates/harness/src/registry.rs:273-287 | with no deletion half done a restart leaves the registry as it was |
| Registry.UnrenamedKeepsOld | crates/harness/src/conversation.rs:298-309 | a write that does not reach its rename, by failure or crash, leaves every sidecar as it was |
| Registry.GateIsNeeded | crates/harness/src/grpc_server.rs:228-230 | a rename keeps the registry sound exactly when the id is known |
| Registry.UncheckedRenameRevives | crates/harness/src/registry.rs:197-214 | an unchecked rename of a deleted id brings it back owned by nobody |
| Registry.ConversationRegistry.WriteMeta | crates/harness/src/conversation.rs:281-311 | what each way a sidecar write can end leaves on disk |
| Registry.ConversationRegistry.Mint | crates/harness/src/registry.rs:178-192 | takes memory and disk of a state to those after the Mint step: persisted first, a failed write registers nothing; a crash leaves the disk a restart gives that state from |
| Registry.ConversationRegistry.SetName | crates/harness/src/registry.rs:197-214 | the same for a rename of any id: the known owner is rewritten with the name, an unknown id gets an empty one |
| Registry.ConversationRegistry.Delete | crates/harness/src/registry.rs:219-225 | the same for a deletion: wiped first, a failure evicts nothing |
| Registry.ConversationRegistry.Owns | crates/harness/src/registry.rs:230-232 | a known id was minted and not deleted, and a minted one is known unless a deletion was begun |
| Registry.ConversationRegistry.SetConversationName | crates/harness/src/grpc_server.rs:213-235 | the checked request is the Rename step and keeps the registry sound; if it succeeds the id has the new name and its mint owner |
| Registry.ConversationRegistry.DeleteConversation | crates/harness/src/grpc_server.rs:193-211 | the checked request is the Delete step and keeps the registry sound; if it succeeds the id is gone from memory and disk |
| Registry.ConversationRegistry.constructor | crates/harness/src/registry.rs:273-287 | starting on a disk gives exactly what a restart of any run with that disk gives |
| Registry.ConversationRegistry.ListSummaries | crates/harness/src/registry.rs:260-268 | each of an owner's conversations once, with its name, and no other's |
| Registry.ConversationRegistry.RebuildFromDisk | crates/harness/src/registry.rs:273-287 | every sidecar is registered and no entry already there is overwritten |
| FrontmatterScan.SplitUnique | crates/harness/src/conversation.rs:359-435 | an input splits in at most one way into optional mark, opener, YAML, first closing line inside the scan, and body |
| FrontmatterScan.Locate | crates/harness/src/conversation.rs:359-408 | finds that split, or nothing exactly when there is none |
| FrontmatterScan.StripFrontmatter | crates/harness/src/conversation.rs:359-435 | an input with no split, or whose YAML is malformed, comes back unchanged with no fields; otherwise the body is what follows the closing line, and the fields are those of the YAML if it is a mapping |
| FrontmatterScan.ComposeThenStrip | crates/harness/src/conversation.rs:346-435 | composing YAML without a closing line with any body and stripping returns them, with either line ending and with the closer at the end |
| FrontmatterScan.PlainFile | crates/harness/src/conversation.rs:346-435 | the same in bytes: an optional byte-order mark, `---`, lines none of which is `---`, `---`, and a body, when all but mark and body is within 4096 bytes |
| FrontmatterScan.WithinLimit | crates/harness/src/conversation.rs:359-408 | nothing that reaches beyond 4096 bytes is ever taken off |
| Fold.Assemble | crates/harness/src/execution_log.rs:36-79 | the fold of a frame list: pictures, joined text, error bit of the last terminal |
| Fold.CleanExitHides | crates/harness/src/execution_log.rs:66-71 | after exit code 0 standard error leaves no trace in the response |
| Fold.FailureShows | crates/harness/src/execution_log.rs:66-71 | after any other it reads as a last line of standard output |
| Fold.StreamsAlike | crates/harness/src/execution_log.rs:36-79 | both streams are gathered alike: exchanging the frames of one for the other exchanges what is gathered |
| Fold.LastDecides | crates/harness/src/execution_log.rs:36-61 | of several terminals the last one gives the exit code and the error bit, which is off exactly for outcome 1 |
| Fold.NoTerminalIsClean | crates/harness/src/execution_log.rs:36-79 | a stream without a terminal is no error and shows no standard error |
| Fold.FramesFromResponse | crates/harness/src/execution_log.rs:92-123 | the frames of a response, with a terminal that says its error bit |
| Fold.ResponseRoundTrip | crates/harness/src/execution_log.rs:81-123 | splitting and folding keeps the error bit, the pictures in order and the joined text |
| Fold.NormalFormsAreFixed | crates/harness/src/execution_log.rs:36-123 | the responses a fold can give are exactly those that splitting and folding leave alone |
| Fold.FoldIdempotent | crates/harness/src/execution_log.rs:36-123 | folding, splitting and folding again equals folding once |
| Fold.JoinedSnoc | crates/harness/src/execution_log.rs:127-132 | pushing lines one by one joins them, leading empty ones aside |
| Crc32.Compute | cli/src/commands/instructions.rs:164-173 | the branch-free bitwise loop computes the CRC-32 of section 8 of RFC 1952 over the bytes' own values |
| Crc32.FeedMatchesTable | cli/src/commands/instructions.rs:166-171 | it equals the table-driven algorithm from any register, on every input |
| Crc32.KnownAnswer | cli/src/commands/instructions.rs:164-173 | the checksum of the one byte `a` is 0xe8b7be43, and that of nothing is 0 |
| Bytes.WordIs | cli/src/commands/instructions.rs:167-167 | the bits of a byte put together give its value |
| Crc32.OneByteDetected | cli/src/commands/instructions.rs:164-173 | inputs that differ in exactly one byte have different checksums |
| Crc32.BurstDetected | cli/src/commands/instructions.rs:164-173 | so have inputs that differ only within four consecutive bytes |
| Gzip.Compress | cli/src/commands/instructions.rs:145-162 | the member: header, stored blocks, checksum and length modulo 2^32 |
| Gzip.RoundTrip | cli/src/commands/instructions.rs:145-162 | a reader of section 2.3 of RFC 1952 with the stored blocks of section 3.2.4 of RFC 1951 recovers the input exactly when it is not empty |
| Gzip.CompressedLength | cli/src/commands/instructions.rs:145-162 | the output is n + 18 + 5 * ceil(n / 65535) bytes and starts with the ten bytes of a header without flags, time or name |
| Gzip.InflateBlock | cli/src/commands/instructions.rs:152-156 | a stored block reads back, and only the last one ends the stream |
| Gzip.KnownBytes | cli/src/commands/instructions.rs:145-162 | a stored block and a trailer field, byte by byte |
| Tar.Tar | cli/src/commands/instructions.rs:95-111 | the archive of the entries, or none |
| Tar.Header | cli/src/commands/instructions.rs:115-141 | the header block of a path, or none |
| Tar.FindCut | cli/src/commands/instructions.rs:116-124 | a long path is cut at its first legal slash and refused exactly when it has none |
| Tar.AppendEntry | cli/src/commands/instructions.rs:97-107 | header, bytes and padding of one entry after what was written |
| Tar.WriteFields | cli/src/commands/instructions.rs:125-138 | the twelve writes of a header into its zeroed block |
| TarReader.RoundTrip | cli/src/commands/instructions.rs:95-141 | a reader of the ustar interchange format, which shares no constant or checksum with the writer, returns exactly the entries, exactly when each is recoverable |
| TarReader.MembersAre | cli/src/commands/instructions.rs:95-107 | what is returned for a file is its path and its bytes with mode 0644, for a directory its path with a slash and mode 0755, both owned by 0:0 at time 0 |
| TarReader.WritesUnless | cli/src/commands/instructions.rs:115-124 | an archive is written exactly when every file can be read and every path fits or has a legal split |
| TarReader.ArchiveLength | cli/src/commands/instructions.rs:107-111 | its length is a multiple of 512 and at least 1024 |
| TarReader.HeaderChecksum | cli/src/commands/instructions.rs:138-139 | every header's checksum validates and fits its field |
| TarReader.HeaderReads | cli/src/commands/instructions.rs:125-141 | every field of a header reads back as written |
| TarReader.PathReads | cli/src/commands/instructions.rs:116-124 | a cut path is put together again exactly when it survives its cut |
| TarReader.OversizeField | cli/src/commands/instructions.rs:131-131 | a size of 8^11 or more leaves its field without a terminator |
| Walk.WalkDir | cli/src/commands/instructions.rs:67-89 | the entries pushed, or a refusal exactly when something below is neither file nor directory or cannot be read |
| Walk.WalkOrderIndependent | cli/src/commands/instructions.rs:53-65 | every order in which any level may be listed gives the same sorted entries |
| Walk.WalksTree | cli/src/commands/instructions.rs:53-89 | the result has every file with its own bytes and every directory that can be reached below the root, under its path, exactly once, and nothing else |
| Walk.WalkRefuses | cli/src/commands/instructions.rs:67-89 | there is none exactly when a link, a special file or an unreadable directory is anywhere below the root |
| Walk.BeforeIs | cli/src/commands/instructions.rs:53-65 | the order is byte by byte, a path before what it is the start of |
| Walk.AncestorsFirst | cli/src/commands/instructions.rs:67-89 | every directory on an entry's path, at whatever depth, is in the result as a directory and before it |
| Walk.PathsDetermine | cli/src/commands/instructions.rs:72-83 | with distinct names at each level a relative path belongs to one entry |
| Pack.Pack | cli/src/commands/instructions.rs:24-29 | the compressed archive of a folder |
| Pack.PackOrderIndependent | cli/src/commands/instructions.rs:24-65 | the same bytes whatever the listing order |
| Pack.PacksUnless | cli/src/commands/instructions.rs:24-124 | a folder packs exactly when everything below it, at any depth, is a readable file or directory whose path fits a header |
| Pack.PackRoundTrip | cli/src/commands/instructions.rs:24-35 | decompressing and reading the archive returns the folder's entries |

## Left out

- DispatchTheorems.NoneStranded: assumes a `begin_call` is not abandoned between enqueueing and starting its driver.
- DispatchServes.UndisturbedReturns: for calls whose toolset is configured; an unknown toolset is an error before anything is shared.
- Session.EveryRunKeeps: the calls of one conversation, which share its log; a call outside any conversation is one whose writes all come to nothing.
- AgentTheorems.RunsHaveShape: an append in a trace is one the loop makes; one that fails is only logged there, and what the store then has is the matter of `Conversation`.
- LineFile.ReadsBack: assumes serialized records hold no newline, parse back, and that part of a record or several run together do not parse.
- Registry.OwnersKept: one operation at a time; operations racing each other are not modelled.
- The step machine leaves out per-call cancel tokens and the reading of the shadow before a bump: they decide only when a dial gives up, which the model leaves open, and which record is bumped. The per-tool lock is left out too, so the theorems hold for more interleavings than it allows.
- The dispatcher without a cluster client, which only parks calls.
- Recency in the registry (`touch`, `last_touched_ms`), its turn tokens and its cache of opened logs.
- Kubernetes Jobs, gRPC, the relay, model streams and their rendering: each is a choice of the world.
- JSON, YAML and base64: a parse is a given function.
- Character boundaries when the frontmatter scan is cut at byte 4096: the model works on bytes.
- Wall-clock time, UUIDs, log messages and the wording of most errors.
- Small pure checks (`version_gte`, `comma_list`, `validate_relpath`, `slice_lines`) and the other CLI commands.
