# dvadva: a verified model of its state machines

A Dafny model of the stateful core of the dvadva agent and its two clients, with proofs of
what that code is for. `dafny verify dfyconfig.toml` checks everything; the files need
nothing but each other.

| file | what it models |
|---|---|
| `index_protocol.dfy`, `index_runs.dfy` | the generation-stamped directory index, as a small-step transition system over any number of readers, writers, undos, snapshot restores and processes; and what holds of its runs, step by step |
| `undo_log.dfy` | the bounded write-undo history and `undo` |
| `messages.dfy`, `message_codec.dfy`, `message_wire.dfy` | messages, their JSON, null-stripping, reading them back, and the keys a written line has |
| `context_log.dfy`, `context_history.dfy` | the event-sourced conversation context: append, checkpoint, revert, clear, restore; and what a run of operations leaves in the history |
| `stream_assembly.dfy` | coalescing a stream of fragments into one message |
| `transcript.dfy`, `transcript_record.dfy` | folding wire events into blocks and recursively nested subagent transcripts; and where each event lands |
| `conversation.dfy`, `conversation_laws.dfy`, `tui_session.dfy`, `gui_session.dfy` | the client session state machine and what each message does to it, the terminal session, and the graphical session with its reconnect ladder |
| `approval_ledger.dfy`, `tui_answers.dfy`, `gui_answers.dfy` | what the agent is told about approvals, over whole runs of either frontend |
| `approval_lookup.dfy` | which transcript block the terminal session's answer lands in |
| `wrap.dfy` | greedy word wrap with hard breaks |
| `compaction.dfy` | partitioning a conversation for compaction and putting it back together |
| `line_reader.dfy` | the bounded line reader and its client twin |
| `path_normal.dfy` | lexical path normalisation |
| `wrappers.dfy`, `text.dfy` | options and results, bytes, a sequence fact, white space and trimming |

How it is put together. State that the code updates in place is a class whose methods follow
the code's branches and loops; each method's contract says that the new state is a function of
the old one, and the theorems are about those functions, over whole runs. What the operating
system, the network or a language model answers is a parameter, so the theorems hold for every
answer, failures included.

Where code and comments disagree the model follows the code. The comment at
`server/kaos/src/cached.rs:187-192` says that the bump before a write keeps a scan taken while
the write is in flight from being published. It does not: a scan that begins after that bump
and ends before the trailing one sees an unmoved counter and is published
(`IndexProtocol.ScanInsideWriteIsPublished`). What keeps readers right is the trailing bump
alone, and `IndexRuns.ReadYourWrites` is proved from it.

Properties that fail in some case are stated with their limit and with a run or an input that
shows it: a current index is exact when all that touched the tree since its scan has settled
(`IndexIsExact`), and any change that can still touch the tree can make it wrong
(`UnsettledDefeatsIndex`, `UnwaitedExitGoesUnseen`, `AbandonedRestoreGoesUnseen`); one undo puts
the files back if and only if the write was reversible (`UndoOneExactly`); a message survives
its log line if and only if every part's tag is its constructor's own (`RoundTrip`); an
overlong line is taken or refused depending on the chunks it came in (`DaemonVerdict`,
`LongLinesDependOnChunking`); and the terminal session's answer lands in the approval's own
block if and only if no earlier block carries the same request (`AnswerDecidesItsOwnBlock`),
which a replayed request breaks (`ReplayedTwinTakesTheAnswer`) and distinct requests guarantee
(`DistinctRequestsFindTheirOwn`).

## Model

| member | source | states |
|---|---|---|
| IndexProtocol.StepKeepsInv | server/kaos/src/cached.rs:145-185 | every atomic step of a reader, writer, undo, restore or process keeps the invariant: each verdict in a scan was true when taken, a stamped scan's generation is the counter at its start, and every tree change is accounted for by the task that made it |
| IndexProtocol.RunKeepsInv | server/kaos/src/cached.rs:145-195 | that invariant holds in every state of every interleaving |
| IndexProtocol.IndexIsExact | server/kaos/src/cached.rs:145-185 | in any run, an index whose generation equals the counter lists exactly the current tree as soon as everything that touched the tree since its scan began has settled (its own bump behind its last effect), whatever else is in flight, alive or abandoned |
| IndexProtocol.IndexIsExactWhenQuiet | server/kaos/src/cached.rs:145-185 | so it does once no mutation is in flight and every process has exited before its last wait or drop |
| IndexProtocol.FastPathIsExact | server/kaos/src/cached.rs:146-154 | so a call answered from memory under that condition lists exactly the tree |
| IndexProtocol.GenerationsClimb | server/kaos/src/cached.rs:166-179 | between any two points of a run the published generation and the counter never decrease, the index is never withdrawn, and its generation never exceeds the counter |
| IndexRuns.ReadYourWrites | server/kaos/src/cached.rs:145-195 | in every run, if a mutation took its trailing bump, or its process exited and was then waited for or dropped, before a listing was asked for, that listing comes from a scan begun after every moment at which the mutation changed the tree, on the fast path and the slow one, whatever else is in flight; each verdict in it was true at an instant of that scan |
| IndexRuns.EndedIsSettled | server/kaos/src/cached.rs:453-474 | such an end leaves the mutation settled from then on, with its own mark no later than that step |
| IndexRuns.CounterCountsBumps | server/kaos/src/cached.rs:187-195 | in every run the counter is the number of bumps taken: both sides of a write, the end of an undo or a completed restore, a spawn, every wait and every drop, each by one, and nothing else |
| IndexRuns.IndexIsExactOnceAllEnded | server/kaos/src/cached.rs:145-185 | once every begun change has ended and every process has exited before a wait or drop of its handle, a current index lists exactly the tree |
| IndexRuns.TouchesFromStartToEnd | server/kaos/src/cached.rs:453-486 | a change may alter the tree from its first step to its trailing bump and a process from spawn to exit; neither a failed wait nor the drop of the handle stops it, and nothing else alters the tree |
| IndexRuns.HandleUntilDropped | server/kaos/src/cached.rs:512-537 | a handle can be waited on, and dropped, from the spawn until its drop, and no longer |
| IndexRuns.PublishedExactlyWhenUnraced | server/kaos/src/cached.rs:166-185 | a finished scan is published if and only if the counter has not moved since it began and nothing of a newer generation is there (an equal one is replaced); a raced one is returned and leaves the index alone |
| IndexRuns.FastPathExactlyWhenCurrent | server/kaos/src/cached.rs:146-154 | a call is answered from memory if and only if the index is current |
| IndexRuns.EveryTaskCanGoOn | server/kaos/src/cached.rs:145-185 | in every state of the invariant each unfinished task has a step of its own to take |
| IndexProtocol.SettledTouchesNoMore | server/kaos/src/cached.rs:453-474 | the effect such a mutation recorded last is its true last one in the run |
| IndexProtocol.UnsettledDefeatsIndex | server/kaos/src/cached.rs:476-521 | from any state with a current index and a change between its bumps, a live process or an abandoned one, one more effect leaves the index current and wrong; a process that then exits without being waited for, and a restore that then gives up, leave it so |
| IndexProtocol.UnwaitedExitGoesUnseen | server/kaos/src/cached.rs:533-537 | a run in which a process touches the tree behind a published scan, exits and is not yet waited for, and leaves the index current and wrong |
| IndexProtocol.ScanInsideWriteIsPublished | server/kaos/src/cached.rs:187-195 | a run in which a scan begins, tests every path and is published between a write's leading bump and its effect, and the index is current and wrong once the write lands |
| IndexProtocol.AbandonedRestoreGoesUnseen | server/kaos/src/cached.rs:334-357 | a run in which a snapshot restore returns early after writing and leaves a current, wrong index with nothing running |
| UndoLog.TrimKeepsLongest | server/kaos/src/cached.rs:494-505 | trimming keeps the longest suffix within 64 entries and 32 MiB: both caps hold and every longer suffix breaks one |
| UndoLog.NewestSurvives | server/kaos/src/cached.rs:197-218 | recording a write never trims that write away, and what is left before it is a suffix of the old history |
| UndoLog.CachedKaos.TrimHistory | server/kaos/src/cached.rs:494-505 | the loop with its running subtraction (never below zero) computes that suffix |
| UndoLog.CachedKaos.RecordWrite | server/kaos/src/cached.rs:199-218 | what is recorded of a missing, unreadable, oversized or readable file (its exact bytes, kept if and only if it was read and is at most 10 MiB), behind a suffix of the old history, and the disk untouched |
| UndoLog.CachedKaos.Write | server/kaos/src/cached.rs:453-467 | record, bump, write, bump: a write that lands leaves its data, behind the old content when appending, no other path changes, the counter rises by two, and the result is the byte count or the failure |
| UndoLog.CachedKaos.UndoNewest | server/kaos/src/cached.rs:235-270 | the newest entry is consumed: its captured bytes are back, or its new file is gone, or nothing changed; no other path is touched; also when the system refuses |
| UndoLog.CachedKaos.Undo | server/kaos/src/cached.rs:226-276 | exactly min(steps, available) entries are undone newest first; files, history and report are those of the step-by-step specification, and one bump follows if any was consumed |
| UndoLog.ReportAddsUp | server/kaos/src/cached.rs:238-274 | restored + deleted + errors equals the entries consumed, refusals included, and skipped ones are among the errors |
| UndoLog.ReportCountsEachKind | server/kaos/src/cached.rs:238-270 | restored counts the contents written back, deleted the new files that are gone, skipped the entries never captured, each on its own |
| UndoLog.OneErrorPerFailure | server/kaos/src/cached.rs:246-268 | each failure adds one error that names its file and what went wrong, and a success none |
| UndoLog.UndoComposes | server/kaos/src/cached.rs:226-276 | undo(a) then undo(b) is undo(a + b), also past the available history: same files, same history, and the two reports add up to the one, whatever the system answers |
| UndoLog.UndoOneExactly | server/kaos/src/cached.rs:199-261 | a write, landed or refused, and its undo give the files back if and only if the path was free, or its content was read and at most 10 MiB, or the write changed nothing there (and its metadata could be read) |
| UndoLog.FailedStatIsUndoneByDeletion | server/kaos/src/cached.rs:200-202 | an existing file whose metadata cannot be read is recorded as absent, so undo deletes it |
| UndoLog.WriteLeadsBack | server/kaos/src/cached.rs:234-261 | undoing from just after a reversible write first takes that write out, then goes on as undoing from just before it, however much trimming dropped |
| UndoLog.UndoInvertsWrites | server/kaos/src/cached.rs:220-276 | in any run of writes, undoing from after the n-th back to the m-th, within the surviving history and with each write in between reversible, gives exactly the files of then |
| UndoLog.UndoGivesOldestRecorded | server/kaos/src/cached.rs:234-270 | each path gets the content from just before its oldest captured entry among the last k, with uncaptured entries anywhere in between |
| UndoLog.UndoLeavesOthers | server/kaos/src/cached.rs:262-269 | a path with no captured entry among the last k is left as it is |
| MessageCodec.StripMessageNulls | server/dvadva-agent/src/soul/context.rs:287-315 | the in-place pass over keys and calls computes the null-stripped value on any JSON |
| MessageCodec.PartRoundTrip | server/kosong/src/message.rs:39-85 | a content part reads back as itself if and only if its tag is its constructor's own |
| MessageCodec.ContentRoundTrip | server/kosong/src/message.rs:390-414 | content reads back, through the bare-string form of a single text and the empty list, exactly when every part does |
| MessageCodec.CallsRoundTrip | server/dvadva-agent/src/soul/context.rs:298-314 | stripped tool calls read back in order, with missing arguments and missing extras |
| MessageCodec.RoundTrip | server/dvadva-agent/src/soul/context.rs:266-271 | decoding the null-stripped encoding gives the message back if and only if its part tags are their own |
| MessageCodec.NoMessageLooksLikeBookkeeping | server/dvadva-agent/src/soul/context.rs:117-138 | no encoded message is read as a usage or checkpoint line |
| MessageWire.LineShape | server/dvadva-agent/src/soul/context.rs:287-315 | the line of a message has role and content always, and name, calls, call id and partial if and only if the message has them; each part and call stands there with its own fields, a missing one of a call as no key and never as null |
| MessageWire.NoOtherKey | server/dvadva-agent/src/soul/context.rs:287-315 | and it has no other key |
| MessageWire.LeanLinesRead | server/kosong/src/message.rs:390-414 | a line without content, name or calls reads as a message without them |
| ContextLog.MemoryRefinesLog | server/dvadva-agent/src/soul/context.rs:158-285 | after any run of successful operations, clear and revert included, memory equals a replay of the active file from scratch |
| ContextHistories.NothingSaidIsLost | server/dvadva-agent/src/soul/context.rs:158-177 | after any successful run without a revert or a clear the history is the start's followed by everything appended and the markers of checkpoints that asked for one, in order; the next id has risen by one per checkpoint, and the token count is the last one reported |
| ContextHistories.ClearForgets | server/dvadva-agent/src/soul/context.rs:233-252 | whatever came before it, a clear empties the history, the count and the ids, and what follows it stands alone |
| ContextHistories.OperationsSucceed | server/dvadva-agent/src/soul/context.rs:158-285 | exactly when an operation on a log of its own writing reports an error: an append or a usage report never, a checkpoint when ids run out, a clear or a revert without a file, and a revert to an id not allocated |
| ContextHistories.MarkerNamesItsId | server/dvadva-agent/src/soul/context.rs:168-174 | a checkpoint's marker is a user message that names its id in decimal |
| ContextHistories.BlanksAreSkipped | server/dvadva-agent/src/soul/context.rs:120-122 | a blank line anywhere changes nothing, for a restore and for a revert |
| ContextHistories.BadLineFails | server/dvadva-agent/src/soul/context.rs:123-137 | a line that is no JSON, or a value neither bookkeeping nor a message, fails the reading of any file that holds it |
| ContextHistories.NumberlessBookkeepingIsIgnored | server/dvadva-agent/src/soul/context.rs:124-135 | a bookkeeping line without its number, or with one too large, says nothing |
| ContextLog.KeptIds | server/dvadva-agent/src/soul/context.rs:204-215 | what a revert to k writes back is a prefix of the log that ends before the first checkpoint k, or all of it when there is none |
| ContextLog.FreshIsOwn | server/dvadva-agent/src/soul/context.rs:87-94 | a new context on no file starts with the ids 0..next-1 (none) |
| ContextLog.StepKeepsOwn | server/dvadva-agent/src/soul/context.rs:158-285 | every successful operation keeps the ids in the log exactly 0..next-1, in order |
| ContextLog.RunKeepsOwn | server/dvadva-agent/src/soul/context.rs:158-285 | so does every run |
| ContextLog.RevertKeepsOwn | server/dvadva-agent/src/soul/context.rs:179-231 | on such a log a revert to k succeeds and leaves the ids below k; a negative id keeps every line |
| ContextLog.TimeTravel | server/dvadva-agent/src/soul/context.rs:158-231 | if a checkpoint allocates k, then after any successful mix of appends, usage updates, further checkpoints and reverts to later ids, reverting to k restores the history, token count, next id and log lines of just before it |
| ContextLog.RevertsCompose | server/dvadva-agent/src/soul/context.rs:179-231 | reverting to k and then to j < k is reverting to j, in memory and in the file |
| ContextLog.Context.Restore | server/dvadva-agent/src/soul/context.rs:96-140 | refuses a used context, reports an absent or empty file, otherwise replays every line or fails on the first that does not parse |
| ContextLog.Context.Take | server/dvadva-agent/src/soul/context.rs:117-138 | one parsed line into memory: usage, checkpoint, or message |
| ContextLog.Context.AppendMessages | server/dvadva-agent/src/soul/context.rs:254-274 | the history is the old one followed by all the messages, and the file the old lines followed by one line per message, in order, each reading back as that very message when its part tags are its own |
| ContextLog.Context.UpdateTokenCount | server/dvadva-agent/src/soul/context.rs:276-284 | the count in memory and one usage line with it in the file, nothing else |
| ContextLog.Context.Checkpoint | server/dvadva-agent/src/soul/context.rs:158-177 | takes the next id, logs it, and appends the marker message to history and file if asked; refuses, unchanged, when the id no longer fits |
| ContextLog.Context.CopyUntil | server/dvadva-agent/src/soul/context.rs:201-230 | the copy loop writes exactly the kept lines and reads them into memory, or stops at one that does not parse |
| ContextLog.Context.RevertTo | server/dvadva-agent/src/soul/context.rs:179-231 | refuses an unallocated id, or a file that cannot be moved aside, before touching anything; otherwise rotates the file and is the revert of the specification |
| ContextLog.Context.ClearAll | server/dvadva-agent/src/soul/context.rs:233-252 | moves the file aside and leaves an empty file, history, count and id, or changes nothing |
| StreamAssembly.Generation.AppendPart | server/kosong/src/generate.rs:77-107 | content, calls and callbacks grow by the group; an orphaned argument fragment adds nothing |
| StreamAssembly.Generation.Run | server/kosong/src/generate.rs:29-75 | for every stream the loop builds the message and callbacks of the reference grouping, forwards every fragment, loses, adds and reorders nothing down to the character, and reports emptiness exactly when the stream holds neither content nor a call; a failing stream yields the error and only a prefix of the callbacks |
| StreamAssembly.EmptyVerdict | server/kosong/src/generate.rs:57-68 | coalescing neither creates nor loses the last content or call |
| StreamAssembly.MergeAssociates | server/kosong/src/message.rs:254-340 | merging is associative wherever the right pair merges |
| StreamAssembly.RegroupingIsIdentity | server/kosong/src/generate.rs:44-50 | grouping the groups changes nothing |
| StreamAssembly.RechunkingIsInvisible | server/kosong/src/generate.rs:29-55 | cutting any fragment, anywhere in any stream, into pieces that merge back gives the same groups |
| StreamAssembly.TextCuts | server/kosong/src/message.rs:312-318 | text may be cut anywhere |
| StreamAssembly.ThinkCuts | server/kosong/src/message.rs:319-331 | thinking may be cut anywhere with its signature on the last piece |
| StreamAssembly.ArgumentCuts | server/kosong/src/message.rs:254-281 | call arguments may be cut anywhere, missing pieces included, after a call (with arguments begun or not) or after an argument fragment |
| StreamAssembly.ArgumentsJoin | server/kosong/src/message.rs:254-281 | and together they are one call of the same id, kind, name and extras, with the arguments' texts joined in order |
| StreamAssembly.AssembledHolds | server/kosong/src/generate.rs:29-107 | the message is an assistant's; its content, read character by character with signatures and pictures in place, is the stream's, and so are its calls with every argument character that followed one; an orphaned fragment drops out |
| Transcripts.Demultiplexes | client/wire-client/src/transcript.rs:239-299 | after any inputs the subagents are those addressed, once each, in first-seen order; each nested transcript is the fold from empty of its own inner events (recursively); done if and only if one of them was a turn end |
| Transcripts.SubagentsDoNotInterfere | client/wire-client/src/transcript.rs:239-262 | the parent's blocks (but for inline summaries) and status are those of the inputs with every subagent event removed |
| Transcripts.BlocksAreAppendOnly | client/wire-client/src/transcript.rs:157-374 | between any two points of a run blocks keep their place, kind and subject, texts and arguments only grow at the end, a result is never overwritten, an abandoned call stays abandoned |
| Transcripts.VersionTracksChange | client/wire-client/src/transcript.rs:152-163 | any change raises the version by one, no change leaves it |
| Transcripts.NothingOpenAfterEnd | client/wire-client/src/transcript.rs:181-187 | no open, un-abandoned call survives a turn end or an interrupted step |
| Transcripts.TextIsConserved | client/wire-client/src/transcript.rs:322-346 | the assistant blocks concatenate to exactly the text received, the thinking blocks to the thinking, and no two of a kind are neighbours |
| TranscriptRecords.MarksAreAnnounced | client/wire-client/src/transcript.rs:165-320 | after any inputs the user lines, tool calls, approvals and notices stand in the blocks exactly as and in the order they came, nothing missing and nothing added |
| TranscriptRecords.InputIsShownLineByLine | client/wire-client/src/transcript.rs:412-426 | a user line is the typed text, or the texts of a list and a word for everything else, one a line |
| TranscriptRecords.ResultLandsOnItsCall | client/wire-client/src/transcript.rs:227-238 | a result lands on the newest open call of its id and changes no other block; with no such call it changes nothing at all |
| TranscriptRecords.ResultsComeFromTheirEvent | client/wire-client/src/transcript.rs:227-238 | a block's result goes from none to some only as a result carrying that block's own call id and that very value comes in |
| TranscriptRecords.ResultsWereDelivered | client/wire-client/src/transcript.rs:227-238 | in every run each result shown was delivered under that block's call id while the call was open |
| TranscriptRecords.ArgumentsLandOnNewestOpen | client/wire-client/src/transcript.rs:214-226 | an argument fragment extends the arguments of the newest open call, and of no other |
| TranscriptRecords.AnswerLandsOnNewestApproval | client/wire-client/src/transcript.rs:305-315 | an answer from the wire is shown on the newest approval of its request, and on no other |
| TranscriptRecords.EndsAbandonTheOpen | client/wire-client/src/transcript.rs:181-187 | a turn's end and an interrupted step abandon the open calls, and those only |
| TranscriptRecords.OnlyEndsAbandon | client/wire-client/src/transcript.rs:351-365 | nothing else ever abandons a call |
| TranscriptRecords.StatusIsLatest | client/wire-client/src/transcript.rs:75-94 | after any inputs each field of the status is the last value given for it |
| TranscriptRecords.SummaryCountsEvents | client/wire-client/src/transcript.rs:242-262 | in every run, while no later block has a call's id, its summary counts exactly the events sent to it since it was shown and lists the last four calls among them |
| Transcripts.Transcript.ApplyEvent | client/wire-client/src/transcript.rs:157-163 | the method is the fold step, and reports whether anything changed |
| Transcripts.Transcript.Inner | client/wire-client/src/transcript.rs:165-320 | all seventeen kinds of event, nested ones included |
| Transcripts.Transcript.Summarise | client/wire-client/src/transcript.rs:242-262 | the newest block of the task counts the event and lists at most the last four tool calls |
| Transcripts.Transcript.Forward | client/wire-client/src/transcript.rs:263-298 | the inner event goes to the task's own transcript, created on its first event |
| Transcripts.Transcript.ApplyContentPart | client/wire-client/src/transcript.rs:322-346 | a fragment extends the last block of its kind or starts one |
| Transcripts.Transcript.AbandonOpenToolCalls | client/wire-client/src/transcript.rs:351-365 | every open call is marked, nothing else changes, and the result says whether one was |
| Transcripts.Transcript.PushApproval | client/wire-client/src/transcript.rs:367-374 | the approval is appended and its position returned |
| Conversations.ReceiveKeepsCoupled | client/dvadva-tui/src/agent.rs:234-406 | any inbound message keeps the coupling: Initializing iff an init answer is awaited, Replaying iff a replay answer is, an awaited prompt answer implies Running, and every pending approval stands at an Approval block with its request |
| Conversations.DrainKeepsCoupled | client/wire-client/src/lib.rs:488-531 | so does any queue in which nothing follows the end of the agent, which is what the reader thread delivers |
| Conversations.CommandsKeepCoupled | client/inkvizitor/src/session.rs:735-756 | submitting, cancelling and stopping keep it in any phase |
| Conversations.AdoptKeepsCoupled | client/inkvizitor/src/session.rs:483-505 | a reconnect strands no pending approval in the dropped transcript |
| Conversations.Conversation.Receive | client/dvadva-tui/src/agent.rs:236-406 | any one message: event, request, answer, end or protocol error, with the coupling kept and the connection alive unless it was the end |
| Conversations.Conversation.End | client/inkvizitor/src/session.rs:359-382 | the end of a connection clears everything awaited and detaches or fails, and keeps the coupling |
| Conversations.Conversation.DrainInbound | client/dvadva-tui/src/agent.rs:234-284 | the drain loop is the fold over the queue and keeps the coupling |
| Conversations.Conversation.Submit | client/dvadva-tui/src/agent.rs:409-429 | prompt when ready, steer when running, otherwise nothing; the coupling is kept in any phase |
| Conversations.Conversation.Adopt | client/inkvizitor/src/session.rs:483-505 | a fresh transcript and the handshake again |
| ConversationLaws.ReceivedSends | client/dvadva-tui/src/agent.rs:286-357 | what each inbound message makes the client send: a replay request for the welcome, a refusal for a live external tool call, otherwise nothing |
| ConversationLaws.CommandsSend | client/dvadva-tui/src/agent.rs:409-437 | what each command sends, and in which phase: the trimmed line as a prompt or a steer, a cancel mid-turn, a shutdown only to an agent that outlives the client |
| ConversationLaws.ReceiveKeepsNumbered | client/dvadva-tui/src/agent.rs:325-406 | every message keeps the requests of a connection numbered from one without gap, and whatever answer is awaited is to a request of that very kind |
| ConversationLaws.CommandsKeepNumbered | client/dvadva-tui/src/agent.rs:409-437 | so does every command |
| ConversationLaws.AdoptIsRelaunch | client/inkvizitor/src/session.rs:483-505 | a detached session that adopts a connection is a freshly launched one on the session it knows or is told, but for the server's name |
| ConversationLaws.InitializeAnswered | client/dvadva-tui/src/agent.rs:325-363 | a protocol it cannot speak, or an error, fails the session; otherwise session, server and model are learned and a replay is awaited |
| ConversationLaws.ReplayAnswered | client/dvadva-tui/src/agent.rs:364-380 | a finished replay leads to Running exactly when the agent says a turn is running, else to Ready |
| ConversationLaws.PromptIsAnswered | client/dvadva-tui/src/agent.rs:381-405 | the prompt's answer makes it ready, with a note when steps ran out or the turn failed |
| ConversationLaws.StrayAnswerIsIgnored | client/dvadva-tui/src/agent.rs:325-406 | an answer nobody awaits changes nothing |
| ConversationLaws.PhaseMoves | client/dvadva-tui/src/agent.rs:234-284 | what else moves the phase: a turn ending for a client that did not start it, and the end of the connection |
| ConversationLaws.MessagesShow | client/dvadva-tui/src/agent.rs:272-323 | the one line or approval that a request, an error or an end shows, and nothing where it shows nothing |
| ConversationLaws.PendingMoves | client/dvadva-tui/src/agent.rs:234-323 | an approval asked for outside a replay becomes the newest pending one, one answered elsewhere is taken down alone, the end takes down all, and nothing else touches what is pending |
| TuiSessions.RunKeepsCoupled | client/dvadva-tui/src/agent.rs:169-466 | the coupling holds in every state of every run of the terminal session, across reconnects |
| TuiSessions.OverlayShowsOldest | client/dvadva-tui/src/agent.rs:216-227 | the overlay is up exactly while something is pending, and shows the oldest request, as an approval block of the transcript has it |
| TuiAnswers.BooksBalance | client/dvadva-tui/src/agent.rs:234-466 | in every run the answers sent are the decisions given, in order, and every request delivered live is pending, decided or taken back, exactly one of these, once; requests stay numbered |
| TuiAnswers.AnswersAreFaithful | client/dvadva-tui/src/agent.rs:439-466 | in every run the k-th answer sent on a connection carries the decision the user gave, at some step, on that very request, which was the oldest pending then and had been delivered live under those ids |
| TuiAnswers.NoneIsAnsweredTwice | client/dvadva-tui/src/agent.rs:439-466 | and when no request was delivered twice none is answered twice, nor answered while pending or after it was answered elsewhere |
| TuiAnswers.AnswerIsSentAndShown | client/dvadva-tui/src/agent.rs:439-466 | answering sends exactly one message, the approval's own rpc id and request id with the chosen answer, takes that approval down, and writes the same answer to one block of that request and to no other block |
| ApprovalLookups.RunKeepsAwaiting | client/dvadva-tui/src/agent.rs:234-323 | in every run pending approvals stand in the order of their blocks and none of those blocks shows a decision |
| ApprovalLookups.AnswerDecidesItsOwnBlock | client/dvadva-tui/src/agent.rs:439-466 | in every reachable state answering the oldest approval decides the very block it was shown in if and only if no earlier block carries its request; otherwise that block stays undecided |
| ApprovalLookups.ReplayedTwinTakesTheAnswer | client/dvadva-tui/src/agent.rs:296-300 | a run from launch in which it does not: a request replayed and then asked again takes its answer to the replayed block |
| ApprovalLookups.DistinctRequestsFindTheirOwn | client/dvadva-tui/src/agent.rs:221-227 | when the requests delivered since launch or the last reconnect are distinct, every pending approval is looked up to its own block, in every reachable state |
| TuiSessions.AgentSession.FirstApprovalInfo | client/dvadva-tui/src/agent.rs:221-227 | the search over the blocks returns that subject |
| TuiSessions.AgentSession.ResolveApproval | client/dvadva-tui/src/agent.rs:439-466 | exactly one message is sent, the oldest approval's own ids with the answer given; that approval is removed and the decision shown; with nothing pending, nothing happens |
| TuiSessions.AgentSession.Reconnect | client/dvadva-tui/src/agent.rs:169-203 | a failed attempt stays detached with the reason, a successful one starts over coupled |
| TuiSessions.FailedReconnectOnlyTells | client/dvadva-tui/src/agent.rs:169-203 | a failed attempt changes the reason shown and nothing else; without a way back, or while not detached, there is no attempt |
| TuiSessions.AgentSession.StopAgent | client/dvadva-tui/src/agent.rs:208-214 | asks the agent to stop and gives up the way back, so no reconnect is offered any more |
| GuiSessions.StepKeepsInv | client/inkvizitor/src/session.rs:336-505 | every step, stopping included, keeps the coupling and the ladder: a scheduled retry implies Detached and not dialling, with attempts to spare and due exactly its backoff after it was scheduled, and every attempt was scheduled once the one before it had started |
| GuiSessions.RunKeepsInv | client/inkvizitor/src/session.rs:352-505 | in every run at most four automatic dials start between two resets, each at least 2, 4 and 8 seconds after the one before it and the fourth at least 15 seconds after the first was scheduled |
| GuiSessions.LadderMovesOn | client/inkvizitor/src/session.rs:359-422 | the end of a live connection, and each way a dial can fail, schedule the next attempt 2^attempts seconds from now while fewer than four are spent; a dial that succeeds starts the handshake |
| GuiSessions.DueAttemptDials | client/inkvizitor/src/session.rs:409-480 | a scheduled attempt waits for its time, then is counted and dialled, or rescheduled when the thread does not start |
| GuiSessions.OnlyResetsClearTheLadder | client/inkvizitor/src/session.rs:699-703 | only a finished replay and the button clear the ladder; the first cancels what is scheduled, the second dials at once or in a second; every other step only adds to it |
| GuiSessions.NoResetMeansAtMostFour | client/inkvizitor/src/session.rs:373-378 | however long a run goes on without a reset, a peer that accepts and dies causes no fifth dial, and the four stay so spaced |
| GuiSessions.SpentLadderWaitsForButton | client/inkvizitor/src/session.rs:384-389 | once four are spent polling starts no dial; with a way back it does nothing at all, and a detached session shows the button |
| GuiSessions.StoppedSessionNeverDials | client/inkvizitor/src/session.rs:434-437 | from the moment a session is told to stop no run starts another dial, by poll or button; at most one under way ends |
| GuiSessions.StoppedSessionKeepsCounting | client/inkvizitor/src/session.rs:420-437 | what runs on is its count: with a retry due every poll counts one more attempt and changes nothing else |
| GuiSessions.ResolveKeepsCoupled | client/inkvizitor/src/session.rs:758-773 | answering any pending approval sends exactly one message, its own ids with the chosen answer, decides exactly the block it was shown in, and keeps the others pending and anchored |
| GuiSessions.Session.ResolveApproval | client/inkvizitor/src/session.rs:758-773 | the method does that, and shows in the block the decision it sends |
| GuiAnswers.BooksBalance | client/inkvizitor/src/session.rs:538-773 | in every run the answers sent are the decisions given, in order, and every request delivered live is pending, decided or taken back, exactly one of these, once |
| GuiAnswers.AnswersAreFaithful | client/inkvizitor/src/session.rs:758-773 | in every run the k-th answer sent on a connection carries the decision the user gave, at some step, on that very request, which was pending then and had been delivered live under those ids |
| GuiAnswers.NoneIsAnsweredTwice | client/inkvizitor/src/session.rs:758-773 | and when no request was delivered twice none is answered twice, nor answered while pending or after it was answered elsewhere |
| GuiSessions.Session.Receive | client/inkvizitor/src/session.rs:538-578 | one inbound message, with its effect on the ladder |
| GuiSessions.Session.PollDial | client/inkvizitor/src/session.rs:391-422 | what the dialling thread answered, or the due attempt started |
| GuiSessions.Session.Reconnect | client/inkvizitor/src/session.rs:434-480 | clears the schedule and dials, or reschedules when the thread does not start |
| GuiSessions.Session.PressReconnect | client/inkvizitor/src/session.rs:1151-1155 | the button resets the ladder and dials |
| GuiSessions.Session.StopAgent | client/inkvizitor/src/session.rs:336-344 | asks the agent to stop, gives up the way back and keeps the invariant |
| Wrap.SplitIntoWords | client/dvadva-tui/src/render.rs:155-168 | the loop splits text into words that concatenate to it, each ended by its only white space, the last perhaps by none |
| Wrap.WordsAreUnique | client/dvadva-tui/src/render.rs:154-168 | a text has no other splitting of that kind |
| Wrap.CutAtWidth | client/dvadva-tui/src/render.rs:171-181 | the longest prefix that fits, and only that |
| Wrap.PlaceWord | client/dvadva-tui/src/render.rs:113-147 | one word of the loop, its terminating hard-break loop included, is the recursive placement: on the row if there is room, on the next if not, cut into full rows while none can hold it |
| Wrap.WrapRuns | client/dvadva-tui/src/render.rs:106-152 | the nested loops over runs and words are the fold of that placement |
| Wrap.PlacedAddsPieces | client/dvadva-tui/src/render.rs:115-147 | read in order, any word adds itself, or its maximal cuts, and nothing else |
| Wrap.FittingPlaced | client/dvadva-tui/src/render.rs:139-147 | a fitting word starts a new row exactly when the one being filled has width and no room for it, and otherwise stands at its end; no other row changes |
| Wrap.PiecesOfOversized | client/dvadva-tui/src/render.rs:116-137 | a word too wide for a row is cut after the longest prefix that fits, neither empty nor all of it, and its rest likewise |
| Wrap.PiecesJoin | client/dvadva-tui/src/render.rs:116-137 | together the pieces are the word, and the last one fits |
| Wrap.OversizedTakesItsOwnRows | client/dvadva-tui/src/render.rs:116-137 | such a word ends the row it finds, blank or not, and each of its pieces takes a row of its own |
| Wrap.WrapLaws | client/dvadva-tui/src/render.rs:106-152 | for every input every row fits max(width, 4), the rows hold the words or their cuts in order, and a blank row is the only row or stands before a hard-broken piece |
| Wrap.WrappedIsTight | client/dvadva-tui/src/render.rs:139-141 | when every word fits, every break was forced: the next row's first word did not fit |
| Wrap.WrapConserves | client/dvadva-tui/src/render.rs:104-152 | read in order the rows carry exactly the input characters, each in its style |
| Wrap.FittingRunsStayWhole | client/dvadva-tui/src/render.rs:104-105 | with every word fitting, the pieces are the words |
| Wrap.ForcedStaysAhead | client/dvadva-tui/src/render.rs:139-141 | rows whose breaks were all forced stay ahead of any other in-order layout, even one with more left to place |
| Wrap.WrapIsOptimal | client/dvadva-tui/src/render.rs:104-152 | no in-order split of the same words into fitting rows has fewer rows; empty text is one blank row |
| Compaction.CutExists | server/dvadva-agent/src/soul/compaction.rs:42-58 | there is a place to cut exactly when enough user and assistant messages were said |
| Compaction.CutIsUnique | server/dvadva-agent/src/soul/compaction.rs:42-52 | and only one: it starts at such a message and keeps exactly the configured number |
| Compaction.Prepare | server/dvadva-agent/src/soul/compaction.rs:34-97 | the backward scan finds that cut; what is written up and what is preserved together are the input; nothing is compacted when there is no cut or nothing before it |
| Compaction.RequestLayout | server/dvadva-agent/src/soul/compaction.rs:70-86 | section i of the request is a text naming message i by number and role, followed by its parts that are no thinking, none else and in order |
| Compaction.RequestLength | server/dvadva-agent/src/soul/compaction.rs:87-92 | the request is a user message, and nothing but the closing prompt follows the sections |
| Compaction.SpokenIsExact | server/dvadva-agent/src/soul/compaction.rs:79-85 | filtering is the increasing selection of exactly the positions that hold no thinking |
| Compaction.Compact | server/dvadva-agent/src/soul/compaction.rs:103-147 | when there is something to write up and the model answers, the result is one user message, the header text followed by the reply's parts that are no thinking, in order, and then the preserved suffix; otherwise the model's error, or the untouched input |
| Compaction.CompactedIsWellFormed | server/dvadva-agent/src/soul/compaction.rs:142-146 | if every tool message followed an assistant (skipping tool messages), it still does; and the result is no longer than the input |
| Compaction.CompactingAgain | server/dvadva-agent/src/soul/compaction.rs:42-61 | compacting the result again cuts right behind the summary: the preserved part never changes |
| LineReader.ReadLine | remote/dvadva-bridge/src/proto.rs:253-287 | the fill and consume loop is the chunk-by-chunk specification, result and leftover |
| LineReader.DaemonVerdict | remote/dvadva-bridge/src/proto.rs:258-283 | exactly when it returns the line, refuses it, or reports the end: it refuses iff the chunks wholly before the newline's exceed the cap; what it returns is the first line and what it leaves is everything behind the newline |
| LineReader.ChunkingDoesNotMatter | remote/dvadva-bridge/src/proto.rs:241-252 | a first line within 65536 bytes is read the same, with the same bytes left, however the stream was chunked |
| LineReader.LongLinesDependOnChunking | remote/dvadva-bridge/src/proto.rs:265-280 | every longer line is accepted in one chunking and refused in another |
| LineReader.BufferIsBounded | remote/dvadva-bridge/src/proto.rs:272-281 | no more is ever collected than the cap and one chunk |
| LineReader.ReadUntilNewline | client/wire-client/src/bridge.rs:232-234 | reading through the limited reader takes the bytes up to and with the first newline, or the limit, or all |
| LineReader.ReadFrameLine | client/wire-client/src/bridge.rs:230-251 | the client's verdict and leftover depend on the stream alone |
| LineReader.TwinsAgree | client/wire-client/src/bridge.rs:224-251 | on every line within the cap both readers return the same text and leave the same bytes |
| LineReader.LinesAreHandedOver | remote/dvadva-bridge/src/proto.rs:258-283 | that text is the first line, decoded, without the white space at its end |
| LineReader.FailuresAreTold | client/wire-client/src/bridge.rs:230-251 | without a newline each reader says whether the line was too long, or the stream over before a newline, or over before anything |
| LineReader.ClientRefusesLongLines | client/wire-client/src/bridge.rs:237-239 | the client refuses exactly the streams whose first line exceeds the cap, and accepts exactly those with a newline within it |
| PathNormal.NormalizePath | server/kaos/src/local.rs:539-585 | the loop over the components and the path put together from them are the normal form |
| PathNormal.NormalShape | server/kaos/src/local.rs:547-569 | the result is never empty, every `..` in it precedes every name, a rooted result has none, and `.` stands only alone |
| PathNormal.NormalizingKeepsMeaning | server/kaos/src/local.rs:547-569 | from any directory, walking the normal form leads where the path led (a root's parent is the root) |
| PathNormal.NormalFormsDecideMeaning | server/kaos/src/local.rs:539-585 | two paths have the same normal form if and only if they lead to the same place from every directory |
| PathNormal.NormalizingIsIdempotent | server/kaos/src/local.rs:539-585 | normalising twice is normalising once |

## Left out

- UndoLog.UndoInvertsWrites: covers writes made one after another; `record_write` and the write that follows are not atomic together, so interleaved writes to one path can record each other's content.
- UndoLog.CachedKaos.RecordWrite: metadata and content are read at one instant; a file that grows in between, directories, and the parent directories `undo` creates are not modelled.
- ContextLog.Context.Checkpoint: an id past the largest 64-bit integer is refused, as a build that checks arithmetic does by stopping; a build that does not would wrap around.
- ContextLog.MemoryRefinesLog: covers successful operations; an append that fails after memory was updated, a read error in the middle of a file, and a last line without its newline are not modelled.
- MessageCodec.RoundTrip: works on JSON values; text, escaping, the number syntax and the array form serde also accepts for a struct are taken for granted.
- StreamAssembly.Generation.Run: the provider's call itself, the response id and the usage figures are left out.
- Transcripts.VersionTracksChange: is about the transcript's own methods; both frontends also push info lines directly (`client/dvadva-tui/src/agent.rs:278-280`) and those bypass the version.
- Transcripts.Demultiplexes: tab titles, cut out of JSON argument text, are left out; an approval's `display` payload likewise.
- Conversations.Conversation.Receive: the text of a failed initialize is the error's message, not its whole JSON; slash commands, focus and tab selection are left out, and request ids are numbers.
- Wrap.WrapRuns: a text's width is the sum of its characters' widths, each at most two; emoji sequences whose width is not additive are outside that.
- LineReader.TwinsAgree: assumes of lossy UTF-8 decoding only that a final newline decodes on its own; time limits and read errors of the sockets are left out.
- PathNormal.NormalizePath: starts from the components the standard library splits a path into; the splitting, and verbatim Windows prefixes, are left out.
- IndexRuns.ReadYourWrites: a mutator whose future is dropped half-way never bumps again and simply stays in flight; changes made by other programs appear only as an executed process.
- The counter's wrap-around at 64 bits, the ignore-aware walk, the glob matcher and the order of a listing: a listing is a set over a fixed universe of paths.
- The contents of a snapshot and of a restored snapshot: files over 10 MiB are not captured and would then be deleted, so restoring is not the inverse of capturing.
- Floating point: figures such as context usage are reals, and no property depends on rounding.
- The live-session registry, the approval queue of the agent, background tasks: their guarantees rest on races or waits outside these files, or are easy facts.
- Drawing, key handling, sockets, process spawning, configuration, the command line and the model providers: plumbing around the state machines above.
