# A verified model of the coding-assistant client's core

This project models, in Dafny, the core of a command-line coding assistant
written in Rust: the context manager that estimates tokens and compresses
the conversation log, the steering queue and the agent loop it drives, the
server-sent-events parser and stream processor, the file manager's line
edits, the `.clauderc` configuration format and the configuration manager,
the parsers of git's output, the Raft handlers, scheduling strategies, lock
manager and consistent-hash ring of the distributed engine, the API
gateway's router, load balancer and circuit breaker, the in-memory cache
with LRU eviction, the tool registry and the built-in tools' guards, the
conversation history, the refactor engine, the SQL builders, the two
terminal front ends (the line editor and the full-screen application), the
plugin manager, the inference engine's instance pool and response cache,
the file watcher's filters and debounce, the workflow scheduler and engine,
the computing command handlers of the command-line entry point, the
security manager, the performance monitor and the analytics collector.

There is one module per source file, plus four shared modules:

- `Wrappers` holds Option and Result.
- `Errors` holds the error type.
- `JsonValue` holds JSON values.
- `Text` models the Rust string operations the source relies on: `lines`, `split`, `trim`, `find`, `parse`, `to_string` and UTF-8 length.

Each file takes the form of its source.

- Pure computations are functions over datatypes.
- Objects whose fields are updated in place are classes. Their methods are proved against specification functions of the old state.
- Loops are `while` loops with their invariants.

The properties the source promises are lemmas about those functions:

- round trips (parse after serialise, decrypt after encrypt, split after join);
- preserved invariants (a sorted queue, an exact event index, a consistent cache footprint);
- exact characterisations of filters and selections.

The clock, identifiers (UUIDs), the network, the file system, subprocesses
and the behaviour of plugins and regular expressions are not computed by the
model. Each becomes a parameter of the operation that uses it:

- `now` is a number;
- a subprocess's output is an `Option<string>`;
- a write's outcome is an `Option` of its error;
- a matcher function stands in for a regular expression.

Rust's fixed-width integers are written out wherever their width matters:

- `u64` counters wrap or panic;
- `u32` token counts are cast;
- `usize` subtractions underflow.

`f32` and `f64` values are reals, and the few places where rounding decides an outcome are stated in integers.

## Model

| member | source | states |
|---|---|---|
| Errors.Clone | src/error/mod.rs:102-120 | a wrapped library error becomes a General error naming its kind, every other variant is copied, and no clone wraps a library error |
| Errors.CloneIdempotent | src/error/mod.rs:102-120 | cloning a clone gives the clone: information is lost once and only once |
| Errors.HelpersSurviveClone | src/error/mod.rs:58-120 | the prefixed helper errors survive cloning unchanged, and a file-system error displays with both prefixes |
| Context.EstimateTokens | src/context/mod.rs:407-415 | the estimate fits a `u32` and is the log's byte total divided by 4 (integer division) |
| Context.TotalBytesConcat | src/context/mod.rs:407-415 | the byte total of two logs joined is the sum of their totals |
| Context.RoleBase | src/context/mod.rs:362-368 | the role's base score is 8, 6, 4 or 2 tenths |
| Context.ImportanceTenths | src/context/mod.rs:361-395 | the uncapped decimal score lies between 0.2 and 1.4, is at least the role's base, and a system message always scores above 0.7 |
| Context.Encode | src/context/mod.rs:368-394 | a tenth is encoded so that its third recovers the tenth, leaving room one unit below and above for `f64` rounding |
| Context.RoundingOffset | src/context/mod.rs:368-390 | the `f64` sum of the applicable parts lands at most one unit from the double nearest its tenth |
| Context.Score | src/context/mod.rs:361-395 | the `f64` score lies within one unit of its decimal value's encoding, so it orders like the decimal score away from ties, and a system message always scores above 0.7 |
| Context.AssistantErrorNoteKept | src/context/mod.rs:368-390 | an assistant message mentioning an error and longer than 100 bytes has decimal score 0.7, yet its `f64` score exceeds 0.7 |
| Context.ScoreFollowsRole | src/context/mod.rs:362-393 | for the same content a role with a higher base never scores lower, in decimal or in `f64` |
| Context.Remember | src/context/mod.rs:370-395 | scoring adds the content to the score cache and keeps every earlier cached score |
| Context.RetainAfterPadding | src/context/mod.rs:336-358 | retention is the scoring pass preceded by the padding messages taken from the back |
| Context.PaddingStops | src/context/mod.rs:350-355 | the padding loop stops after exactly the number of steps needed to reach 5 messages or the start of the log |
| Context.KeepImportantFromLog | src/context/mod.rs:340-347 | the scoring pass keeps only messages of the log and no more than the log holds |
| Context.RetainKeepsImportant | src/context/mod.rs:336-358 | after retention the log holds every message the scoring pass kept, at least min(5, old length) messages, and only messages of the old log |
| Context.ImportantOnly | src/context/mod.rs:340-347 | the reference: a message is listed iff it is in the log and its own score exceeds 0.7 |
| Context.KeepImportantExact | src/context/mod.rs:340-347 | when no content is shared by messages with different scores, the scoring pass keeps exactly the messages scoring above 0.7, and the cache gains exactly their scores |
| Context.CacheShadowsRole | src/context/mod.rs:361-395 | the cache is keyed by content alone: a system message scored after an assistant message with the same text inherits the lower score |
| Context.RetainCanDuplicate | src/context/mod.rs:336-358 | padding does not skip kept messages: a lone system message comes back twice |
| Context.ContentsWhereExact | src/context/mod.rs:239-333 | each extractor collects the content of every message it selects and nothing else |
| Context.BackgroundParts | src/context/mod.rs:225-236 | the background has at most five parts |
| Context.BackgroundFromFirstFive | src/context/mod.rs:225-236 | the background draws exactly on the user and system messages among the first five |
| Context.UserIntentIsLastUser | src/context/mod.rs:268-282 | the intent is the last user message's content, or the fixed default when no message is from the user |
| Context.StructuredCompression | src/context/mod.rs:179-222 | the summary records the message count and the time, has no tool usage, and each list is no longer than the log |
| Context.ContextManager.constructor | src/context/mod.rs:93-109 | a new manager has an empty log and history, zero tokens and messages, and threshold 92% |
| Context.ContextManager.ShouldCompress | src/context/mod.rs:135-137 | compression is needed iff the token estimate is strictly above 92% of the maximum |
| Context.ContextManager.EstimateTokenCount | src/context/mod.rs:407-415 | the estimate equals the stored token total |
| Context.ContextManager.UpdateStats | src/context/mod.rs:398-404 | message count, token estimate and usage ratio describe the log again; the other statistics are unchanged |
| Context.ContextManager.CalculateImportanceScore | src/context/mod.rs:361-395 | a cached score is returned as stored; a fresh one is the `f64` score, stored uncapped and returned capped at 1.0; the result exceeds 0.7 iff the score through the old cache does |
| Context.ContextManager.RetainImportantMessages | src/context/mod.rs:336-358 | the new log is the retention of the old one |
| Context.ContextManager.CompressContext | src/context/mod.rs:140-176 | the summary is built from the whole old log, the log is retained, the compression count grows by one, the time is stamped and the history grows by the summary |
| Context.ContextManager.AddMessage | src/context/mod.rs:112-122 | the message is appended at the back, the statistics are recomputed, and compression runs iff the new ratio exceeds 92% |
| Context.ContextManager.ClearCompressionHistory | src/context/mod.rs:423-425 | the history is empty afterwards |
| Steering.Received | src/steering/mod.rs:80-84 | a reader receives each item, in order, as a ready `Some` |
| Steering.EnqueueRefusal | src/steering/mod.rs:51-60 | enqueue fails iff the queue is done or holds an error; on a done queue the refusal changes nothing; a success appends the message at the back |
| Steering.EnqueueAllAppends | src/steering/mod.rs:51-69 | on a healthy queue, enqueueing a list appends exactly that list |
| Steering.DequeueDrains | src/steering/mod.rs:72-95 | dequeueing a healthy queue n times returns its n items front to back and empties it |
| Steering.Fifo | src/steering/mod.rs:51-95 | what is enqueued into an empty healthy queue is dequeued in the same order |
| Steering.DoneEmptyGivesNone | src/steering/mod.rs:87-90 | a done, empty, error-free queue answers `None` at once, with or without a timeout |
| Steering.ErrorHasPriority | src/steering/mod.rs:74-77 | a stored error is returned (cloned) before any queued item, and nothing is consumed |
| Steering.PendingExactly | src/steering/mod.rs:72-95 | the reader waits iff the queue is empty, not done and has no error |
| Steering.FlagsAreSticky | src/steering/mod.rs:51-95 | enqueue and dequeue never clear the done flag or the stored error |
| Steering.AsyncMessageQueue.constructor | src/steering/mod.rs:31-39 | a new queue is empty, not done, without error or cleanup callback |
| Steering.AsyncMessageQueue.WithCleanup | src/steering/mod.rs:42-48 | a cleanup callback is installed |
| Steering.AsyncMessageQueue.Enqueue | src/steering/mod.rs:51-69 | the new state and result are those of the enqueue step |
| Steering.AsyncMessageQueue.Dequeue | src/steering/mod.rs:72-95 | the new state and result are those of the dequeue step |
| Steering.AsyncMessageQueue.DequeueTimeout | src/steering/mod.rs:98-103 | the new state and result are those of the timed dequeue step (an expired wait is `None`) |
| Steering.AsyncMessageQueue.Done | src/steering/mod.rs:106-114 | the done flag is set, nothing else changes, and the cleanup callback runs once if installed |
| Steering.AsyncMessageQueue.SetError | src/steering/mod.rs:117-120 | the error is stored, replacing any earlier one |
| Steering.AsyncMessageQueue.IsEmpty | src/steering/mod.rs:123-126 | true iff no item is queued |
| Steering.AsyncMessageQueue.Len | src/steering/mod.rs:128-131 | the number of queued items |
| Steering.AsyncMessageQueue.IsDone | src/steering/mod.rs:133-136 | the done flag |
| Steering.SteeringController.constructor | src/steering/mod.rs:176-185 | a fresh empty queue, no pending interrupt signal, real-time mode on |
| Steering.SteeringController.SetRealTimeMode | src/steering/mod.rs:188-190 | the real-time flag takes the given value |
| Steering.SteeringController.SendUserInput | src/steering/mod.rs:193-203 | enqueues a user-input message stamped with the given time |
| Steering.SteeringController.SendSystemControl | src/steering/mod.rs:206-209 | enqueues a system-control message with the command and parameters |
| Steering.SteeringController.SendInterrupt | src/steering/mod.rs:212-223 | enqueues an interrupt message, and adds one interrupt signal iff that succeeded |
| Steering.SteeringController.ReceiveMessage | src/steering/mod.rs:226-228 | the queue's dequeue step |
| Steering.SteeringController.ReceiveMessageTimeout | src/steering/mod.rs:231-233 | the queue's timed dequeue step |
| Steering.SteeringController.CheckInterrupt | src/steering/mod.rs:236-239 | true iff a signal was pending, and then exactly one signal is consumed |
| Steering.SteeringController.WaitForInterrupt | src/steering/mod.rs:242-248 | ready with success iff a signal was pending (consuming it); otherwise waits and changes nothing |
| Steering.SteeringController.Shutdown | src/steering/mod.rs:251-253 | the queue is marked done (running its cleanup if installed) |
| Steering.InterruptScenario | src/steering/mod.rs:324-341 | on a fresh controller an interrupt is accepted, queued as an interrupt message, and signalled |
| Steering.SteeringSession.constructor | src/steering/mod.rs:268-274 | a new session is active, with its id and a fresh empty queue |
| Steering.SteeringSession.Close | src/steering/mod.rs:297-300 | the session becomes inactive and its queue is marked done |
| Steering.SessionScenario | src/steering/mod.rs:344-351 | a new session is active; closing it deactivates it and finishes its queue |
| Agent.NewContext | src/agent/mod.rs:59-69 | a new context keeps its ids and has no tools, no environment, no thinking-token budget and no fallback model |
| Agent.WithToolsConfig | src/agent/mod.rs:72-75 | the tool configuration is replaced and every other field is kept |
| Agent.WithEnvironment | src/agent/mod.rs:78-81 | the environment is replaced and every other field is kept |
| Agent.CompressionNeededAbove920 | src/agent/mod.rs:261-271 | compression is needed iff enabled and more than 920 messages are held; 920 messages never need it |
| Agent.ControlEffect | src/agent/mod.rs:321-338 | a status change is only ever to Paused or Running, and a command is ignored iff it is none of "pause", "resume", "stop" |
| Agent.ToolLinesList | src/agent/mod.rs:344-350 | every tool name appears in the tool lines after the "- " prefix |
| Agent.SystemPromptListsTools | src/agent/mod.rs:341-353 | the prompt starts with the base sentence, is exactly that sentence without tools, and contains a "- name" line for every tool |
| Agent.AgentLoop.constructor | src/agent/mod.rs:143-160 | a new loop is NotStarted, with compression enabled, no responses and a fresh empty steering queue |
| Agent.AgentLoop.GetStatus | src/agent/mod.rs:163-165 | the current status |
| Agent.AgentLoop.SendResponse | src/agent/mod.rs:179-183 | succeeds iff the receiver is open, appending the response; otherwise fails with the send error and sends nothing |
| Agent.AgentLoop.SetStatus | src/agent/mod.rs:168-176 | the status is stored, and a status update is sent when the receiver is open |
| Agent.AgentLoop.CheckCompressionNeeded | src/agent/mod.rs:261-271 | answers whether compression is enabled and more than 920 messages are held |
| Agent.AgentLoop.PerformCompression | src/agent/mod.rs:274-292 | only sends a "compressed" status update; fails iff the receiver is closed |
| Agent.AgentLoop.HandleSystemControl | src/agent/mod.rs:321-338 | "pause" sets Paused, "resume" sets Running, "stop" sends an interrupt, any other command changes nothing |
| Agent.AgentLoop.HandleSteeringMessage | src/agent/mod.rs:295-318 | user input is echoed back, an interrupt or "stop" is queued again and signalled, "pause"/"resume" set the status, status updates and other commands change nothing ; the whole new state is that of HandleStep |
| Agent.AgentLoop.GenerateSystemPrompt | src/agent/mod.rs:341-353 | the prompt for the tool map in its iteration order |
| Agent.AgentLoop.GenerateConversationStream | src/agent/mod.rs:356-372 | sends a partial and a final text response; fails iff the receiver is closed |
| Agent.AgentLoop.ProcessSteering | src/agent/mod.rs:240-246 | the new status, responses, queue and signals are exactly those of SteerStep: a stored queue error is returned with nothing changed; an empty queue changes nothing; otherwise the head message is removed and handled as handle_steering_message does, so an interrupt or "stop" raises a signal; responses only grow |
| Agent.AgentLoop.ExecuteCycle | src/agent/mod.rs:232-258 | the new state and result are exactly those of CycleStep: Running is reported, a "compressed" update is sent when compression is needed, one steering step, then the partial and final text; the first failing step ends the cycle with its error. A successful cycle asks to continue and leaves Running or Paused; with an open receiver and a healthy queue it always succeeds; a stored queue error fails it with a clone of that error |
| Agent.SteerOutcome | src/agent/mod.rs:240-246 | the steering step only adds responses and interrupt signals; with an open receiver and a live queue it succeeds; a stored queue error is returned as its clone; an interrupt or "stop" at the head is signalled unless handling fails; a success leaves the status as it was, Running or Paused |
| Agent.CycleOutcome | src/agent/mod.rs:232-258 | a cycle only adds responses and interrupt signals; a successful cycle answers "continue" and leaves the loop Running or Paused; with an open receiver and a live queue it succeeds; a stored queue error ends it with that error; an interrupt or "stop" at the head is signalled unless the cycle fails |
| Agent.TurnOutcome | src/agent/mod.rs:196-219 | one turn of the loop only adds responses, and it stops when the queue holds an error, a signal is pending or an interrupt or "stop" is next |
| Agent.AgentLoop.RunCycle | src/agent/mod.rs:196-219 | the new state and the stop decision are exactly those of TurnStep: a failed cycle sets the Error status, sends the error with code AGENT_LOOP_ERROR and stops; a successful one stops exactly when an interrupt signal is pending and consumes it; responses only grow, and a turn that must stop at once does |
| Agent.AgentLoop.Run | src/agent/mod.rs:186-229 | with a closed receiver the run fails at once and sends nothing; a finished run succeeds with status Completed, after a start response and ending with the final response; a pending interrupt, a stored error or an interrupt or "stop" at the head of the queue finishes it after one cycle |
| Agent.StopCommandScenario | src/agent/mod.rs:186-229 | a queued "stop" command ends the loop after one cycle with success and status Completed |
| Streaming.Data | src/streaming/mod.rs:207-216 | without a data line the data is null; data that does not decode as JSON is kept as a string |
| Streaming.ParseEventTypeNames | src/streaming/mod.rs:234-246 | a name parses to a custom type iff it is not one of the eight known names, and the parsed type's name is the input |
| Streaming.EventTypeRoundTrip | src/streaming/mod.rs:234-246 | parsing the name of a type gives that type back (custom types that do not borrow a known name) |
| Streaming.SplitFieldParts | src/streaming/mod.rs:182-188 | the field is the text before the first ':' (the whole line when there is none) and the value is the rest with leading whitespace trimmed |
| Streaming.DataOverwrites | src/streaming/mod.rs:207-216 | a later data line replaces an earlier one |
| Streaming.RetryOnlyNumeric | src/streaming/mod.rs:220-224 | "retry" changes the event only when the value parses as a `u64`, and then only its retry |
| Streaming.UnknownFieldIgnored | src/streaming/mod.rs:225-227 | an unknown field name leaves the event unchanged |
| Streaming.CommentIgnored | src/streaming/mod.rs:177-180 | a comment line changes nothing; any other line leaves an event pending |
| Streaming.BlankLineEmits | src/streaming/mod.rs:156-166 | a blank line emits exactly the pending event and counts it; with nothing pending it changes nothing |
| Streaming.ConsumeAllAppend | src/streaming/mod.rs:152-170 | consuming two runs of lines is the same as consuming their concatenation |
| Streaming.ConsumeAllCounts | src/streaming/mod.rs:156-166 | events are only appended, and the event counter grows by the number emitted |
| Streaming.Tail | src/streaming/mod.rs:152-154 | the buffered remainder holds no '\n' |
| Streaming.LinesAndTail | src/streaming/mod.rs:152-154 | a buffer is exactly its complete lines, each with its '\n', followed by its tail |
| Streaming.CompleteLinesStep | src/streaming/mod.rs:152-154 | at the first '\n' the complete lines are the text before it followed by the lines after it |
| Streaming.ConsumeStep | src/streaming/mod.rs:152-170 | consuming a buffer's complete lines starts with its first line |
| Streaming.NoNewlineStaysBuffered | src/streaming/mod.rs:152-154 | without a '\n' no line is complete and the whole text stays buffered |
| Streaming.SplitBuffer | src/streaming/mod.rs:146-154 | the lines of a concatenation are the first part's lines, then the lines of its tail joined to the rest |
| Streaming.ChunkStepCounts | src/streaming/mod.rs:145-173 | bytes grow by exactly the chunk's length, the event counter by the number of emitted events, and the buffer keeps a '\n'-free suffix of the old buffer plus the chunk |
| Streaming.PartialChunkBuffered | src/streaming/mod.rs:145-173 | a chunk without '\n' is only buffered: no event, and the pending event is unchanged |
| Streaming.SseParser.constructor | src/streaming/mod.rs:136-142 | a new parser is in the initial state: empty buffer, nothing pending, zeroed counters |
| Streaming.SseParser.ParseLineInto | src/streaming/mod.rs:176-231 | the pending event becomes the line's parse over it |
| Streaming.SseParser.ParseChunk | src/streaming/mod.rs:145-173 | the new state and the events returned are those of the chunk step |
| Streaming.SseParser.ConsumeLineInto | src/streaming/mod.rs:152-170 | one loop step: the state becomes the consumption of the line |
| Streaming.SseParser.GetStats | src/streaming/mod.rs:249-251 | the parser's counters |
| Streaming.SseParser.Reset | src/streaming/mod.rs:254-258 | back to the initial state |
| Streaming.EventsStepEffect | src/streaming/mod.rs:304-338 | every event is broadcast in order, exactly the Error events are counted, and the state is the one forced by the last Error or MessageStop, else unchanged |
| Streaming.ProcessStepAnnounces | src/streaming/mod.rs:341-348 | a whole chunk never announces the same state twice in a row |
| Streaming.ProcessStepWithoutSignal | src/streaming/mod.rs:304-338 | a disconnected, connected or streaming processor ends a chunk Streaming; a completed or failed one keeps its state |
| Streaming.StreamProcessor.constructor | src/streaming/mod.rs:279-291 | a new processor is Disconnected with a fresh parser, zeroed counters and nothing sent |
| Streaming.StreamProcessor.SetState | src/streaming/mod.rs:341-348 | the state is set and announced only when it changes |
| Streaming.StreamProcessor.ProcessChunk | src/streaming/mod.rs:304-338 | the parser takes the chunk step, and the processor applies the resulting events in order; only the error counter of the statistics changes |
| Streaming.StreamProcessor.HandleEvent | src/streaming/mod.rs:315-335 | the processor takes one event step |
| Streaming.StreamProcessor.GetState | src/streaming/mod.rs:351-353 | the current state |
| Streaming.StreamProcessor.GetStats | src/streaming/mod.rs:356-366 | the processor's counters, with event and byte counts and event times taken from the parser |
| Streaming.StreamProcessor.Reset | src/streaming/mod.rs:369-373 | a fresh parser, zeroed counters, and the state set back to Disconnected |
| Streaming.RealTimeOutput.constructor | src/streaming/mod.rs:394-405 | empty buffer, enabled, nothing sent, receiver not taken |
| Streaming.RealTimeOutput.Flush | src/streaming/mod.rs:430-438 | a non-empty buffer is sent whole and cleared; an empty one changes nothing; the written text is unchanged |
| Streaming.RealTimeOutput.ForceFlush | src/streaming/mod.rs:441-443 | the buffer is empty afterwards and a non-empty one was sent |
| Streaming.RealTimeOutput.Append | src/streaming/mod.rs:408-419 | ignored while disabled; otherwise the text joins the buffer, and when the flush condition holds on the joined buffer (a newline, the interval elapsed since the last flush, or over 100 bytes) the whole buffer is sent and cleared and the flush time becomes now; otherwise it stays buffered and nothing is sent. The written text grows by exactly the appended text and no newline stays buffered |
| Streaming.RealTimeOutput.TakeReceiver | src/streaming/mod.rs:446-448 | the receiver is handed out the first time only |
| Streaming.RealTimeOutput.SetEnabled | src/streaming/mod.rs:451-456 | the flag is set; disabling discards the buffered text, enabling keeps it |
| Streaming.RealTimeOutput.IsEnabled | src/streaming/mod.rs:459-461 | the enabled flag |
| Streaming.StreamingClient.constructor | src/streaming/mod.rs:478-493 | a Disconnected processor with a fresh parser, and an enabled output with nothing written |
| Streaming.StreamingClient.DeliverEvents | src/streaming/mod.rs:537-565 | the output gains exactly the text of the received events (nothing while disabled) |
| Streaming.StreamingClient.DeliverEvent | src/streaming/mod.rs:541-561 | the output gains exactly the text of one event |
| Streaming.StreamingClient.ReceiveChunkAsWritten | src/streaming/mod.rs:527-540 | as written, the chunk is processed before the output subscribes, so the output text is unchanged |
| Streaming.StreamingClient.ReceiveChunk | src/streaming/mod.rs:496-534 | with the output subscribed first, the processor takes the chunk step and the output gains the text of every event the chunk brings |
| Streaming.DeltaEventWritesText | src/streaming/mod.rs:541-548 | a content delta carrying the text "hi" writes "hi" |
| FileSystem.InsertedLines | src/fs/mod.rs:190-199 | the line vector gains one line: the text at the index, the lines before it unchanged, the lines after it shifted by one |
| FileSystem.InsertAtLine | src/fs/mod.rs:190-199 | an error iff the index exceeds the line count; otherwise the lines with the text inserted at the index, joined by "\n" |
| FileSystem.DeletedLines | src/fs/mod.rs:202-211 | exactly end-start+1 lines go; those before start are kept and those after end follow them |
| FileSystem.DeleteLines | src/fs/mod.rs:202-211 | an error iff the range is not start ≤ end < line count; otherwise the lines without start..=end, joined by "\n" |
| FileSystem.ReplacedLines | src/fs/mod.rs:214-230 | the new lines sit at index start, the lines before start and after end are kept around them |
| FileSystem.ReplaceLines | src/fs/mod.rs:214-230 | the same range check as deletion; otherwise the range is replaced by the lines of the new text |
| FileSystem.ApplyEdit | src/fs/mod.rs:65-92 | a missing file is an error except for a whole replacement; Replace gives the new text; Append gives old + "\n" + new; Insert, Delete and ReplaceRange give the line operations' results |
| FileSystem.PathJoin | src/fs/mod.rs:482-501 | the joined path ends with the relative path |
| FileSystem.FileSystemManager.constructor | src/fs/mod.rs:281-283 | the manager starts with the given working directories |
| FileSystem.FileSystemManager.AddWorkingDir | src/fs/mod.rs:286-290 | a listed directory is not added again, a new one is appended; no duplicate is ever created and the directory is listed afterwards |
| FileSystem.FileSystemManager.GetWorkingDirs | src/fs/mod.rs:293-295 | the working directories |
| FileSystem.FileSystemManager.ResolvePath | src/fs/mod.rs:482-501 | an absolute path resolves unchanged; a relative path resolves under the first working directory where it exists, and succeeds whenever it exists under one |
| FileSystem.InsertThenDelete | src/fs/mod.rs:190-211 | deleting the line just inserted gives back the original lines |
| Network.Len | src/network/mod.rs:705-716 | the length of plain text is its byte count; of blocks, the byte count of their text and tool-result parts |
| Network.BlocksLenZero | src/network/mod.rs:705-716 | blocks have length zero iff none of them carries text |
| Network.IsEmpty | src/network/mod.rs:719-721 | empty iff no text is carried, iff the length is zero |
| Network.RenderAll | src/network/mod.rs:724-736 | each block renders to its own piece, in order |
| Network.AsStr | src/network/mod.rs:724-736 | plain text is returned as it is |
| Network.JoinHasPart | src/network/mod.rs:724-736 | every piece of a joined list occurs in the joined text |
| Network.ContentContains | src/network/mod.rs:691-702 | plain text contains `t` exactly when its text does; for blocks, some text or tool-result block must contain it; whatever `contains` finds is also contained in the rendered string |
| Network.RequestUrl | src/network/mod.rs:183-188 | an endpoint starting with "http" is used as it is; otherwise the base without trailing '/' and the endpoint without leading '/' are joined by one '/' |
| Network.RequestUrlSingleSlash | src/network/mod.rs:183-188 | outside the pass-through case exactly one '/' separates base and endpoint |
| Network.RequestUrlIgnoresTrailingSlash | src/network/mod.rs:183-188 | a base ending in '/' gives the same URL as without it |
| Network.SseItem | src/network/mod.rs:472-489 | one stream item yields at most one event or error |
| Network.SseEvents | src/network/mod.rs:462-492 | the filter yields no more results than there are items |
| Network.SseEventsAppend | src/network/mod.rs:462-492 | the filter works item by item: filtering two runs is filtering their concatenation |
| Network.DoneDoesNotStop | src/network/mod.rs:476-478 | "[DONE]" yields nothing and does not end the stream: later items are still filtered |
| Config.DefaultConfig | src/config/mod.rs:139-198 | the defaults: 4096 tokens, streaming on, the API key from the environment, the three default allowed tools, no denied tools, confirmation required, one working directory, no editor, shell or model |
| Config.ParseBool | src/config/mod.rs:392 | `true` iff the text is "true", `false` iff it is "false" |
| Config.NatOr | src/config/mod.rs:390 | the parsed number when the text parses, else the fallback |
| Config.TrimMatches | src/config/mod.rs:384 | the result neither starts nor ends with the stripped character |
| Config.AssignRcEffect | src/config/mod.rs:386-399 | each of the nine keys assigns exactly its own field (a bad MAX_TOKENS gives 4096, a bad TEMPERATURE 0.7, a bad STREAM true) and nothing else |
| Config.ParseRc | src/config/mod.rs:370-405 | the default configuration with every line of the text applied in order |
| Config.SkippedRcLine | src/config/mod.rs:376-382 | a blank line, a '#' comment or a line without '=' leaves the configuration unchanged |
| Config.UnknownRcKey | src/config/mod.rs:398-400 | a line whose key is not one of the nine known keys leaves the configuration unchanged |
| Config.TrimInside | src/config/mod.rs:374 | every character of the trimmed text comes from the text |
| Config.BadMaxTokensFallsBack | src/config/mod.rs:390 | an unparsable MAX_TOKENS value sets 4096 |
| Config.KeyLine | src/config/mod.rs:382-385 | a line `key=rest` with a plain key sets that key to the trimmed, unquoted rest |
| Config.QuotedValue | src/config/mod.rs:384 | a quoted safe value reads back as the value itself |
| Config.PlainValue | src/config/mod.rs:384 | a value without surrounding whitespace or quotes reads back unchanged |
| Config.NumberValue | src/config/mod.rs:384 | a rendered number reads back unchanged |
| Config.FieldLine | src/config/mod.rs:382-399 | a line of a known key assigns that key's field the value read from the rest of the line |
| Config.QuotedLine | src/config/mod.rs:382-399 | a quoted line of a known key assigns exactly the value it quotes |
| Config.CommentLine | src/config/mod.rs:376-379 | a comment line changes nothing |
| Config.ApiLinesApply | src/config/mod.rs:448-457 | the serialised API block restores the base URL, model, token limit, temperature and streaming |
| Config.LoggingLinesApply | src/config/mod.rs:459-462 | the serialised logging block sets the log level and nothing else |
| Config.PreferenceLinesApply | src/config/mod.rs:464-471 | the serialised editor and shell lines restore those preferences and nothing else |
| Config.HeadLinesApply | src/config/mod.rs:442-451 | the header and the key line restore the API key when there is one |
| Config.RcRoundTrip | src/config/mod.rs:370-476 | parsing the serialised configuration restores the API key (or the environment's when there was none), base URL, model, token limit, temperature, streaming, log level, editor and shell, for values without quotes or surrounding whitespace |
| ConfigStore.FileName | src/config/mod.rs:302-328 | a file name is a non-empty single component other than ".." |
| ConfigStore.Extension | src/config/mod.rs:302-328 | an extension holds no '.' and the file name ends with '.' followed by it |
| ConfigStore.DetectFormat | src/config/mod.rs:302-328 | JSON iff the extension lower-cases to "json", YAML iff to "yaml" or "yml", TOML iff to "toml", rc iff the file name is `.clauderc`; anything else is an error |
| ConfigStore.DetectRcFile | src/config/mod.rs:318-322 | a file named `.clauderc` is in the rc format in any directory |
| ConfigStore.FileNameJoin | src/config/mod.rs:302-328 | the file name of `dir/name` is `name` for a single component |
| ConfigStore.FindConfigFile | src/config/mod.rs:268-299 | succeeds iff some candidate exists, and then returns the first existing candidate with its format; otherwise "No config file found" |
| ConfigStore.GetAfterSetText | src/config/mod.rs:489-594 | reading a text key after setting it gives the text back |
| ConfigStore.GetAfterSetNumber | src/config/mod.rs:489-594 | reading a numeric key after setting it to an in-range number gives the same digits back |
| ConfigStore.SetNumberFallback | src/config/mod.rs:489-549 | a numeric key set to text that does not parse reads back as its fallback |
| ConfigStore.GetAfterSetBool | src/config/mod.rs:489-594 | a boolean key reads back "true" or "false" as set, and its fallback for any other text |
| ConfigStore.SetKeyFrame | src/config/mod.rs:489-594 | setting one key leaves every other key's value as it was |
| ConfigStore.Validate | src/config/mod.rs:643-676 | valid iff the API key is present, the model non-empty, and temperature and top-p lie in [0, 1]; each failure gives its own field and message, checked in that order |
| ConfigStore.DefaultValidates | src/config/mod.rs:643-676 | the defaults validate iff the environment supplies an API key |
| ConfigStore.ExampleConfig | src/config/mod.rs:626-640 | the example configuration validates and sets `code` as editor and `/bin/zsh` as shell |
| ConfigStore.EnvOverrides | src/config/mod.rs:597-623 | each of the six variables that is set overrides its field; every other field is kept |
| ConfigStore.EnvKeyKeepsValid | src/config/mod.rs:597-676 | a valid configuration stays valid after the environment overrides (given a non-empty model variable) |
| ConfigStore.OpenOutcome | src/config/mod.rs:331-341 | (load_config, then detect_format at lines 240-248) a configuration and format iff the format is detectable and the file parsed (present) or the defaults were written (absent); the error otherwise is detect_format's, the parse's or the write's, in the order the code meets them; an absent file gives the defaults |
| ConfigStore.ConfigManager.FromPath | src/config/mod.rs:240-248 | a new manager holding OpenOutcome's configuration, the path and the detected format, or OpenOutcome's error (an unknown extension gives detect_format's error) |
| ConfigStore.ConfigManager.SetValue | src/config/mod.rs:489-549 | an unknown key is an error and changes nothing; a known key is assigned; path and format are kept |
| ConfigStore.ConfigManager.GetValue | src/config/mod.rs:552-594 | an error iff the key is unknown (the getter accepts exactly the setter's keys) |
| ConfigStore.ConfigManager.LoadFromEnv | src/config/mod.rs:597-623 | always succeeds, and the configuration becomes the environment overrides of the old one |
| Git.Words | src/git/mod.rs:479 | whitespace splitting yields no empty word |
| Git.FilesIn | src/git/mod.rs:182-200 | the paths (from index 3 on) of the porcelain lines in one column, in order |
| Git.FilesInMembership | src/git/mod.rs:182-200 | a path is listed in a column iff some porcelain line in that column names it |
| Git.FilesInEmpty | src/git/mod.rs:182-200 | a column's list is empty iff no porcelain line belongs to it |
| Git.GetFileStatus | src/git/mod.rs:164-204 | a failed command is an error; otherwise the staged, unstaged and untracked lists of the porcelain lines (lines shorter than 3 skipped, "??" untracked, a non-space in column 0 staged and in column 1 unstaged) |
| Git.HasChangesIff | src/git/mod.rs:137 | some list is non-empty iff some porcelain line reports a change |
| Git.ChangeLineColumns | src/git/mod.rs:182-200 | a line reports a change iff it lands in some column |
| Git.CountOr0 | src/git/mod.rs:243-245 | a count that does not parse reads as 0 |
| Git.CountParts | src/git/mod.rs:241-247 | both counts fit a `u32`; a later piece overrides an earlier one |
| Git.ReadCounts | src/git/mod.rs:241-247 | the loop over the bracket's pieces computes the counts of the pieces |
| Git.GetRemoteStatus | src/git/mod.rs:207-264 | a failed command gives zero counts and no upstream; otherwise the status read from the first line |
| Git.NoTrackingMeansZero | src/git/mod.rs:229-263 | without a "## " header carrying "..." there is no upstream and both counts are 0 |
| Git.CountsOfBracket | src/git/mod.rs:241-247 | "ahead N, behind M" reads as N and M, and a count that does not parse reads as 0 |
| Git.BracketPanicExample | src/git/mod.rs:238-240 | for the header of branch `a]b` tracking `origin/a]b`, the search as written slices backwards (a panic) while the corrected search reads "ahead 1" |
| Git.BracketAgreesWhenOrdered | src/git/mod.rs:238-240 | when the first ']' follows the first '[', the corrected search reads what the source reads |
| Git.ParseCommitLine | src/git/mod.rs:337-348 | a log line is a commit iff it has at least four fields separated by vertical bars; the file list is empty |
| Git.GetCommitHistory | src/git/mod.rs:316-351 | nothing when git fails; otherwise one commit per well-formed log line, in order |
| Git.CommitRoundTrip | src/git/mod.rs:336-347 | a commit whose fields hold no vertical bar is read back from its log line |
| Git.CommitsRoundTrip | src/git/mod.rs:336-347 | the log lines of several such commits are read back as those commits, in order |
| Git.ParseBranchLine | src/git/mod.rs:370-396 | a blank line gives no branch; otherwise the branch is current iff the trimmed line starts with '*', and has no last commit |
| Git.GetBranches | src/git/mod.rs:354-399 | nothing when git fails; otherwise one branch per non-blank line, in order |
| Git.BranchRoundTrip | src/git/mod.rs:370-396 | a listed branch with a plain name is read back as it was |
| Git.QualifiedPlain | src/git/mod.rs:381-386 | stripping "remotes/" from a qualified name gives the branch's name and remoteness |
| Git.GetDiff | src/git/mod.rs:439-507 | nothing when git fails; otherwise the entries read from the output's lines |
| Git.DiffCount | src/git/mod.rs:463-504 | there is one entry per header that names a file |
| Git.OneFileDiff | src/git/mod.rs:463-504 | one file's diff is the header's file, the following lines as text, and the counts of added and deleted lines, "+++"/"---" not counted |
| Git.GetStatus | src/git/mod.rs:126-143 | an error outside a repository or when the branch or file status cannot be read; otherwise the trimmed branch, the three lists and whether any is non-empty; the failed file-status read gives its own error; the remote status is that of the first line of the header output, or zero counts without one |
| Raft.VoteStep | src/distributed/mod.rs:991-1025 | a newer term is adopted first (vote cleared, back to follower); the vote is granted unless the term is stale, another candidate already has it, or the candidate's log is behind |
| Raft.AppendStep | src/distributed/mod.rs:1028-1086 | a stale term is refused without change; a newer one is adopted with the vote cleared; a log too short for the previous index refuses unchanged, one whose entry there has another term is cut before it and refuses; otherwise everything after that index is replaced by the entries |
| Raft.RaftConsensus.constructor | src/distributed/mod.rs:964-975 | a new node is a follower at term 0 with no vote and an empty log |
| Raft.RaftConsensus.HandleVoteRequest | src/distributed/mod.rs:991-1025 | the new state and the response are those of the vote step; the peers are kept |
| Raft.RaftConsensus.HandleAppendEntries | src/distributed/mod.rs:1028-1086 | the new state and the response are those of the append step; the peers are kept |
| Raft.RaftConsensus.StartElection | src/distributed/mod.rs:1089-1118 | a new term with a vote for itself; every peer's vote counts as granted, so the node always becomes leader |
| Raft.OneVotePerTerm | src/distributed/mod.rs:991-1025 | over any run of vote requests handled one after another, two granted votes with the same term go to the same candidate (election safety at one node) |
| Raft.VoteKept | src/distributed/mod.rs:991-1025 | after voting for a candidate, every vote the node grants in that term during a later run of requests goes to that candidate |
| Raft.RunTermsFrom | src/distributed/mod.rs:991-1000 | every response of a run of vote requests carries a term no older than the node's term before the run |
| Raft.TermsMonotone | src/distributed/mod.rs:991-1086 | terms never go backwards under either handler, and a granted vote answers with at least the request's term |
| Raft.AppendMatchesLeader | src/distributed/mod.rs:1053-1075 | after a successful append the entry at the previous index has the leader's previous term and the new entries follow it (log matching) |
| Raft.RefusedAppendShrinksOnly | src/distributed/mod.rs:1028-1086 | a refused append never adds entries: the log afterwards is a prefix of the log before |
| Raft.StaleAppendShortens | src/distributed/mod.rs:1065-1075 | a delayed request carrying one entry the log already holds cuts a three-entry log to two: entries are replaced whether or not they conflict |
| Distributed.RoundRobinStrategy.constructor | src/distributed/mod.rs:754-758 | the index starts at 0 |
| Distributed.RoundRobinStrategy.SelectNode | src/distributed/mod.rs:763-773 | no node for an empty list; otherwise the node at the index modulo the length, and the index advances by one |
| Distributed.RoundRobinPick | src/distributed/mod.rs:763-773 | the position picked on the j-th call after starting at index k |
| Distributed.RoundRobinCoversAll | src/distributed/mod.rs:763-773 | over any n consecutive calls on the same n nodes every node is picked (fairness) |
| Distributed.SelectBestNode | src/distributed/mod.rs:794-809 | none iff no node is online; otherwise an online node with the lowest load, the first of several equal ones |
| Distributed.HeartbeatFailed | src/distributed/mod.rs:826-832 | a node has failed iff its last check lies more than 60 whole seconds (61000 ms or more) in the past |
| Distributed.WholeSeconds | src/distributed/mod.rs:828-829 | milliseconds to whole seconds, rounding toward zero |
| DistributedLocks.AcquireStep | src/distributed/mod.rs:1205-1249 | an absent lock is created for this node; an expired one is taken over; an unexpired shared lock requested as shared is shared; anything else conflicts and the request is queued |
| DistributedLocks.ReleaseStep | src/distributed/mod.rs:1252-1270 | only the holder's release has an effect; the lock then passes to the most recently queued request, or is removed when nobody waits |
| DistributedLocks.Unexpired | src/distributed/mod.rs:1279-1285 | exactly the locks not yet past their expiry remain |
| DistributedLocks.DistributedLockManager.constructor | src/distributed/mod.rs:1196-1202 | no locks, and a 30-second default timeout |
| DistributedLocks.DistributedLockManager.AcquireLock | src/distributed/mod.rs:1205-1249 | the new table and the result are those of the acquire step |
| DistributedLocks.DistributedLockManager.ReleaseLock | src/distributed/mod.rs:1252-1270 | the new table is the release step's |
| DistributedLocks.DistributedLockManager.CheckLock | src/distributed/mod.rs:1273-1276 | the lock under the id, if any |
| DistributedLocks.DistributedLockManager.CleanupExpiredLocks | src/distributed/mod.rs:1279-1285 | the table keeps only the unexpired locks |
| DistributedLocks.ExclusiveExcludes | src/distributed/mod.rs:1220-1246 | while a lock is unexpired, an exclusive holder or an exclusive request always conflicts, even for the holder itself, and the holder stays |
| DistributedLocks.AcquireReleaseRoundTrip | src/distributed/mod.rs:1205-1270 | taking a free lock and releasing it with nobody waiting leaves the table as it was |
| DistributedLocks.CleanupIdempotent | src/distributed/mod.rs:1279-1285 | cleaning up twice at the same time removes nothing more |
| HashRing.Insert | src/distributed/mod.rs:1534-1537 | `BTreeMap::insert` on the ring as a sorted list: the result holds only the new virtual node and old ones |
| HashRing.InsertSpec | src/distributed/mod.rs:1534-1537 | the ring stays sorted and maps the hash to the node, replacing an entry with the same hash |
| HashRing.Remove | src/distributed/mod.rs:1544-1547 | `BTreeMap::remove`: the result holds only old virtual nodes, none with that hash |
| HashRing.RemoveSpec | src/distributed/mod.rs:1544-1547 | the ring stays sorted and maps exactly what it mapped before, minus that hash |
| HashRing.AddMapSpec | src/distributed/mod.rs:1530-1538 | after adding, every virtual node of the node is on the ring and points to it; every other position keeps its owner |
| HashRing.RemoveMapSpec | src/distributed/mod.rs:1541-1549 | after removing, exactly the node's virtual-node hashes are gone |
| HashRing.AddRemoveRoundTrip | src/distributed/mod.rs:1530-1549 | adding a node whose virtual nodes collide with nothing and removing it again restores the ring |
| HashRing.FirstAtOrAfter | src/distributed/mod.rs:1562-1564 | a position within the ring or just past it |
| HashRing.FirstAtOrAfterSpec | src/distributed/mod.rs:1562-1564 | on a sorted ring, every virtual node before the position hashes below the key and every one from it on at or above: the start of `range(hash..)` |
| HashRing.Walk | src/distributed/mod.rs:1552-1582 | the visiting order of `get_nodes`, from the key's position to the end and then from the start, visits exactly the ring's virtual nodes, and at least one when the ring is not empty |
| HashRing.CollectSpec | src/distributed/mod.rs:1566-1579 | the result has no duplicates, comes from the walk, holds at most `count` nodes, and all the walk's nodes when they are fewer |
| HashRing.AsWrittenAgrees | src/distributed/mod.rs:1566-1579 | for a positive count the code as written and the corrected collection agree |
| HashRing.ZeroCountAsWritten | src/distributed/mod.rs:1570-1578 | as written, asking for no replicas on a non-empty ring returns one node |
| HashRing.ConsistentHashRing.constructor | src/distributed/mod.rs:1521-1527 | an empty ring with 150 virtual nodes per node |
| HashRing.ConsistentHashRing.AddNode | src/distributed/mod.rs:1530-1538 | records the weight and places the node's virtual nodes on the ring |
| HashRing.ConsistentHashRing.RemoveNode | src/distributed/mod.rs:1541-1549 | a known node's weight and positions go; an unknown node changes nothing |
| HashRing.ConsistentHashRing.GetNodes | src/distributed/mod.rs:1552-1582 | up to `count` distinct nodes in ring order starting at the key's position |
| HashRing.CollectNodes | src/distributed/mod.rs:1570-1579 | the loop gives exactly Collect of the walk: each owner once, in walk order, at most `count` of them (the count checked before each push, the corrected order) |
| HashRing.PrimaryIsSuccessor | src/distributed/mod.rs:1558-1569 | the first node of a key is the owner of the first virtual node at or after its hash, wrapping to the first overall |
| Gateway.Router.constructor | src/gateway/mod.rs:596-601 | the route table starts empty |
| Gateway.Router.AddRoute | src/gateway/mod.rs:603-607 | the route is stored under its id, replacing any route with that id |
| Gateway.Router.MatchRoute | src/gateway/mod.rs:609-621 | none iff no route's pattern matches the path with the request's method among its methods; otherwise a stored route that serves the request |
| Gateway.HealthyInstances | src/gateway/mod.rs:660-664 | exactly the upstream's healthy instances |
| Gateway.SelectInstance | src/gateway/mod.rs:659-673 | none iff no instance is healthy; otherwise a healthy instance of the upstream |
| Gateway.SelectionDependsOnIdLength | src/gateway/mod.rs:675-677 | requests whose ids have the same length always go to the same instance |
| Gateway.CanExecute | src/gateway/mod.rs:699-724 | an unknown service or a closed breaker lets requests through; an open one iff the timeout has passed since its last failure; a half-open one iff fewer than the maximum trial requests were made |
| Gateway.RecordSuccessStep | src/gateway/mod.rs:726-745 | a success resets the failure count, adds one success, closes a half-open breaker that reaches the success threshold, and leaves every other service alone |
| Gateway.RecordFailureStep | src/gateway/mod.rs:747-765 | a failure adds one to the count, records its time, opens the breaker once the count reaches the threshold, and leaves every other service alone |
| Gateway.RecordingNeverHalfOpens | src/gateway/mod.rs:699-765 | no recorded outcome ever makes a breaker half-open |
| Gateway.OpenStaysOpen | src/gateway/mod.rs:737-742 | so a success on an open breaker leaves it open: once open, only half-open could close it |
| Gateway.FailAllSpec | src/gateway/mod.rs:747-765 | after a run of failures the count grows by their number, the last one's time is kept, and the breaker is open once the threshold is reached |
| Gateway.ThresholdFailuresOpen | src/gateway/mod.rs:699-765 | after at least the threshold of consecutive failures the breaker is open and refuses requests until the timeout has passed since the last of them |
| Gateway.CircuitBreaker.constructor | src/gateway/mod.rs:692-697 | no service has a state yet |
| Gateway.CircuitBreaker.RecordSuccess | src/gateway/mod.rs:726-745 | the states become the success step's |
| Gateway.CircuitBreaker.RecordFailure | src/gateway/mod.rs:747-765 | the states become the failure step's |
| Gateway.RecordResponseStep | src/gateway/mod.rs:780-796 | a status below 400 counts as a success and any other as a failure; the tally of that status grows by one and no other tally changes |
| Gateway.GatewayMonitor.constructor | src/gateway/mod.rs:769-773 | all statistics start at zero |
| Gateway.GatewayMonitor.RecordRequest | src/gateway/mod.rs:775-778 | only the request total grows, by one |
| Gateway.GatewayMonitor.RecordResponse | src/gateway/mod.rs:780-796 | the statistics become the response step's |
| Gateway.Dispatch | src/gateway/mod.rs:501-546 | a refusing breaker gives 503 unavailable, no healthy instance gives 503 no upstream, otherwise the upstream's status and body with the service's name and a healthy instance's id |
| Gateway.AfterForward | src/gateway/mod.rs:548-553 | a forwarded status of 500 or more is recorded as a failure, any other as a success |
| Gateway.ApiGateway.constructor | src/gateway/mod.rs:445-467 | no routes, no breaker states, zeroed statistics, and the fixed breaker configuration: 5 failures to trip, 3 successes to close, a 60 s timeout, 3 half-open probes |
| Gateway.ApiGateway.HandleRequest | src/gateway/mod.rs:470-559 | every request is counted; a request no route serves gets 404 and changes nothing else; otherwise it is dispatched through a serving route, and only a forwarded request updates the breaker and the response statistics |
| Cache.RemoveFirst | src/cache/advanced.rs:384-386 | `position` then `remove` keeps only keys of the order and never lengthens it |
| Cache.RemoveFirstUnique | src/cache/advanced.rs:384-386 | on an order without duplicates, removing the first occurrence removes the key altogether and keeps the order duplicate-free |
| Cache.TouchUnique | src/cache/advanced.rs:383-387 | moving a key to the back keeps the access order duplicate-free, adds only that key, and puts it last (most recently used) |
| Cache.SumRemoveFirst | src/cache/advanced.rs:438-447 | the bytes counted over the order drop by exactly the removed key's size |
| Cache.SumAppend | src/cache/advanced.rs:421-430 | appending a key adds exactly its size to the counted bytes |
| Cache.SumFrame | src/cache/advanced.rs:379-380 | changing entries without changing their sizes leaves the counted bytes unchanged |
| Cache.LruVictims | src/cache/advanced.rs:485-498 | the keys LRU eviction picks are keys of the order that have entries |
| Cache.LruVictimsEnough | src/cache/advanced.rs:489-497 | the picked keys free at least the needed bytes, or else every key of the order that has an entry is picked |
| Cache.LruVictimsArePrefix | src/cache/advanced.rs:489-497 | the picked keys are exactly the keys with entries in some prefix of the order: the least recently used ones |
| Cache.ExpiredGetLeaksUsage | src/cache/advanced.rs:369-375 | as written, reading an expired 10-byte entry from a one-entry cache leaves 10 bytes counted and the key in the access order of an empty cache |
| Cache.DropEntryConsistent | src/cache/advanced.rs:435-453 | dropping an entry together with its bytes and its place in the order keeps the entries, the access order and the byte count in agreement |
| Cache.PutConsistent | src/cache/advanced.rs:416-430 | storing an entry as `set` does (old size out, new size in, key moved to the back) keeps them in agreement |
| Cache.MemoryCache.constructor | src/cache/advanced.rs:357-364 | an empty cache with no bytes counted |
| Cache.MemoryCache.Get | src/cache/advanced.rs:366-393 | a missing key is a miss and changes nothing; an expired entry is dropped with its bytes and its place in the order and is a miss; a hit returns the value, counts the access and makes the key the most recently used |
| Cache.MemoryCache.Hit | src/cache/advanced.rs:378-387 | the entry's access time and count are updated, the key goes to the back of the order, the bytes stay |
| Cache.MemoryCache.MoveToEnd | src/cache/advanced.rs:383-387 | the key becomes most recently used; entries and bytes are unchanged |
| Cache.MemoryCache.Drop | src/cache/advanced.rs:438-448 | the state becomes the consistent drop of the entry |
| Cache.MemoryCache.Set | src/cache/advanced.rs:395-433 | when the new bytes would pass the limit, exactly the keys evict_entries picks for them (Victims) are dropped first, else nothing is; then the entry (size the value's length, no accesses, normal priority, expiring `ttl` after now when given) replaces any old one and the key becomes the most recently used, the others keeping their order; without eviction the byte count moves by the size difference |
| Cache.SetState | src/cache/advanced.rs:395-433 | the state set leaves holds the new value under the key, as the most recently used, and every other entry it holds is one the old state held unchanged |
| Cache.MemoryCache.MakeRoom | src/cache/advanced.rs:410-414 | eviction runs only when the new bytes would pass the limit, and then drops exactly the picked keys from the entries and the access order; otherwise nothing changes |
| Cache.MemoryCache.Put | src/cache/advanced.rs:416-430 | the entry replaces any old one, the key is touched and the bytes move by the size difference |
| Cache.MemoryCache.Delete | src/cache/advanced.rs:435-453 | true iff the key had an entry; the state becomes the consistent drop of it |
| Cache.MemoryCache.Clear | src/cache/advanced.rs:455-466 | no entries, no access order, no bytes |
| Cache.MemoryCache.GetStats | src/cache/advanced.rs:468-477 | the byte count and the number of entries; the other counters are zero |
| Cache.MemoryCache.EvictEntries | src/cache/advanced.rs:480-526 | LRU deletes the picked least recently used keys; TTL deletes every expired entry; the other policies delete nothing; the access order loses exactly the deleted keys and keeps the rest in order |
| Cache.MemoryCache.RemoveKeys | src/cache/advanced.rs:519-523 | exactly the given keys lose their entries and their places in the access order, which keeps the other keys in order; the state stays consistent |
| Cache.MemoryCache.RemoveKey | src/cache/advanced.rs:519-523 | one deletion of that loop: the key leaves the entries and the access order |
| Cache.AdvancedCacheManager.constructor | src/cache/advanced.rs:172-183 | an empty memory layer with the given strategy, and zero statistics |
| Cache.AdvancedCacheManager.UpdateStats | src/cache/advanced.rs:341-353 | one more hit or one more miss, nothing else |
| Cache.AdvancedCacheManager.Get | src/cache/advanced.rs:197-240 | a memory hit; otherwise the persistent and then the distributed layer's value, copied into memory without expiry; otherwise a miss; exactly one of hits and misses grows; the memory layer is left as its get leaves it on a hit (the access counted, the key most recent), and on a miss it is the state after get's drop of an expired entry, with the back-filled value stored as SetState gives (evictions included) when a lower layer had one |
| Cache.AdvancedCacheManager.Backfill | src/cache/advanced.rs:210-239 | a value from a lower layer is stored in memory as SetState gives (no expiry) and counted as a hit; no value changes nothing in memory and counts a miss |
| Cache.AdvancedCacheManager.Set | src/cache/advanced.rs:243-266 | the memory layer becomes SetState of its old state: the same Victims dropped when the bytes would pass the limit, the new entry stored under the key as the most recently used; one write is counted |
| Cache.AdvancedCacheManager.Delete | src/cache/advanced.rs:269-295 | the memory layer becomes DropEntry of its old state (the entry, its bytes and its place in the access order go); the result is true iff some layer held it, and only then is a delete counted |
| Cache.AdvancedCacheManager.Clear | src/cache/advanced.rs:298-308 | the memory layer is emptied; the statistics stay |
| Cache.AdvancedCacheManager.GetStats | src/cache/advanced.rs:311-320 | the manager's counters with the memory layer's byte count and entry count |
| Tools.SuccessResult | src/tools/mod.rs:33-42 | a successful result carrying the data, no error, no time, no logs |
| Tools.ErrorResult | src/tools/mod.rs:44-53 | a failed result with null data and the message as its error |
| Tools.NewContext | src/tools/mod.rs:131-142 | a new context grants "read" and "write" but not "execute", with debugging off |
| Tools.ValidateParameters | src/tools/mod.rs:160-174 | passes iff every required parameter is supplied; a failure names a required parameter that is missing |
| Tools.CheckSecurity | src/tools/mod.rs:177-201 | a safe tool always passes; a medium one iff the context grants "write", a dangerous one iff it grants "execute"; a refusal is a permission error |
| Tools.ValidationExamples | src/tools/mod.rs:427-438 | the test tool accepts `{"input": "test"}` and refuses `{}` |
| Tools.RecordCall | src/tools/mod.rs:321-342 | one more call and its time; a successful result counts as a success, a failed result or an error as an error; calls stay equal to successes plus errors |
| Tools.ExecuteResult | src/tools/mod.rs:278-318 | an unknown tool, missing parameters or a refused permission are errors, in that order; otherwise the result is Ok with the elapsed time, succeeding iff the tool did, and a tool's own error becomes a failed result carrying its message |
| Tools.InsertByNameMultiset | src/tools/mod.rs:273 | inserting a definition into the sorted list adds exactly that definition |
| Tools.InsertByNameSorted | src/tools/mod.rs:273 | inserting a definition keeps the list sorted by name |
| Tools.SortByNameSpec | src/tools/mod.rs:273 | sorting orders the definitions by name and keeps each of them as often as it occurs |
| Tools.SameMembers | src/tools/mod.rs:265-275 | two lists with the same multiset have the same length and the same members |
| Tools.ToolRegistry.constructor | src/tools/mod.rs:229-234 | no tools and no statistics |
| Tools.ToolRegistry.RegisterTool | src/tools/mod.rs:237-256 | a taken name is an error and changes nothing; otherwise the tool is added with zero statistics |
| Tools.ToolRegistry.GetTool | src/tools/mod.rs:259-262 | the definition registered under the name, found iff registered |
| Tools.ToolRegistry.ListTools | src/tools/mod.rs:265-275 | every registered definition exactly once, sorted by name |
| Tools.ToolRegistry.ExecuteTool | src/tools/mod.rs:278-318 | the result is the one described above; the tool's statistics record the call iff the call reached the tool, and nothing else changes |
| Tools.ToolRegistry.UpdateStats | src/tools/mod.rs:321-342 | a tool with statistics records the call; an unknown name changes nothing |
| Tools.ToolRegistry.GetToolStats | src/tools/mod.rs:345-348 | a registered tool's counters, in which every call is either a success or an error |
| Tools.FailedCallCountsAsError | src/tools/mod.rs:309-340 | a call that reached the tool and failed is counted as an error, although `execute_tool` returns Ok for it |
| BuiltinTools.StringParam | src/tools/builtin.rs:55-60 | a parameter is read iff it is present and a JSON string |
| BuiltinTools.Components | src/tools/builtin.rs:63 | the path components: no empty or "." piece survives, and each comes from the text |
| BuiltinTools.ParsePath | src/tools/builtin.rs:63 | a path text is absolute exactly when it starts with '/'; its components are never empty, never "." and hold no '/' |
| BuiltinTools.JoinPath | src/tools/builtin.rs:63 | `Path::join`: an absolute path replaces the base; a relative one extends its components |
| BuiltinTools.PathStartsWith | src/tools/builtin.rs:64 | `Path::starts_with`: the same kind of path, and the base's components are a prefix of the path's, whole component by whole component |
| BuiltinTools.PathInsideAsWritten | src/tools/builtin.rs:63-66 | the guard as written: every relative path passes, and an absolute one passes exactly when it starts with the working directory |
| BuiltinTools.InsideAsWritten | src/tools/builtin.rs:63-66 | the guard as written on the texts: a path text not starting with '/' always passes |
| BuiltinTools.Resolve | src/tools/builtin.rs:63-66 | lexical resolution of "..": for an absolute path no ".." is left, and resolution never lengthens the components |
| BuiltinTools.ResolvePlain | src/tools/builtin.rs:63-66 | resolving components without ".." changes nothing |
| BuiltinTools.Normalize | src/tools/builtin.rs:63-66 | normalising keeps the kind of path, leaves an absolute path without "..", and leaves a path without ".." unchanged |
| BuiltinTools.PathInside | src/tools/builtin.rs:63-66 | the resolving guard (the corrected one): a relative path without ".." from a working directory without ".." is always inside |
| BuiltinTools.Inside | src/tools/builtin.rs:63-66 | the resolving guard on the texts: an absolute working directory is inside itself |
| BuiltinTools.InsideAgreesWithoutParent | src/tools/builtin.rs:63-66 | where neither path has "..", the guard as written and the resolving guard agree |
| BuiltinTools.TraversalPassesAsWritten | src/tools/builtin.rs:63-66 | "../../etc/passwd" from "/home/user" passes the guard as written although it names "/etc/passwd"; the resolving guard refuses it |
| BuiltinTools.PathCheck | src/tools/builtin.rs:54-66 | applies the corrected, resolving guard (Inside), not the guard as written: a missing or non-string required path is a validation error; the only error result is "Path traversal not allowed"; the tool goes on iff the path (or "." when optional and absent) lies inside the working directory after ".." is resolved |
| BuiltinTools.ReadCheck | src/tools/builtin.rs:54-66 | with the corrected guard: a missing path is the validation error "Path parameter is required"; a given path goes on iff it is inside the working directory, else the result is "Path traversal not allowed" |
| BuiltinTools.WriteCheck | src/tools/builtin.rs:133-156 | with the corrected guard: the path is required first, then the content; with both present the write goes on exactly when the path is inside the working directory, else the result is "Path traversal not allowed" |
| BuiltinTools.ListCheck | src/tools/builtin.rs:232-250 | with the corrected guard: never a validation error; the listing goes on iff the path, "." when absent, is inside the working directory |
| BuiltinTools.FileToolChecks | src/tools/builtin.rs:54-249 | without a path, reading is a validation error while listing is not; with one, the read and list tools judge it alike |
| BuiltinTools.FirstDangerous | src/tools/builtin.rs:336-341 | none iff the command contains no listed pattern; otherwise a listed pattern it contains |
| BuiltinTools.BashCheck | src/tools/builtin.rs:323-341 | a missing command is a validation error; the command runs iff it contains none of "rm -rf", "sudo", "su", "chmod 777", "mkfs", "dd"; otherwise the error result names one it contains |
| BuiltinTools.BashTimeout | src/tools/builtin.rs:331-333 | the timeout is a given non-negative whole number, or 30 seconds when none is given |
| BuiltinTools.SubstringMatchRefusesGitAdd | src/tools/builtin.rs:336-341 | substring matching refuses "git add ." as the dangerous command "dd" |
| BuiltinTools.OnlyDdMatches | src/tools/builtin.rs:336-341 | a command containing "dd" but none of r, s, c, m is refused for "dd" |
| BuiltinTools.MissingCharNotContained | src/tools/builtin.rs:338 | a text lacking one of the pattern's characters does not contain the pattern |
| BuiltinTools.ContainedCharsOccur | src/tools/builtin.rs:338 | every character of a contained pattern occurs in the text |
| BuiltinTools.FirstTaken | src/tools/builtin.rs:380-388 | none iff no listed name is taken; otherwise a listed name that is taken |
| BuiltinTools.RegisterBuiltinTools | src/tools/builtin.rs:380-388 | the registry's tools, statistics and the result are exactly those of RegisterBuiltins: read, write, list and bash registered in turn with `?`, stopping at the first taken name with its "already registered" error and keeping the built-ins added before it |
| BuiltinTools.RegisterBuiltinsOutcome | src/tools/builtin.rs:380-388 | with none of the names taken, read, write, list and bash are added with zero statistics and the result is Ok; otherwise the error names the first taken of read, write, list, bash; if "read" is taken nothing is added |
| BuiltinTools.RegisterIntoEmpty | src/tools/builtin.rs:380-388 | on a new registry the built-ins make exactly four tools |
| Conversations.AddUsage | src/conversation/mod.rs:164-169 | the totals grow field by field by the message's usage |
| Conversations.InsertByTimeMultiset | src/conversation/mod.rs:239 | inserting a message into the time-sorted list adds exactly that message |
| Conversations.InsertByTimeSorted | src/conversation/mod.rs:239 | inserting a message keeps the list sorted by time |
| Conversations.InsertByTimeIds | src/conversation/mod.rs:239 | inserting a message adds exactly its id |
| Conversations.InsertByTimeUnique | src/conversation/mod.rs:239 | inserting a message whose id is new keeps ids unique |
| Conversations.UniqueTail | src/conversation/mod.rs:239 | dropping the first message keeps ids unique, and its id does not recur |
| Conversations.HasIdCons | src/conversation/mod.rs:233 | an id occurs in a list with a first message iff it is that message's or occurs in the rest |
| Conversations.UniqueCons | src/conversation/mod.rs:239 | putting a message with a new id in front keeps ids unique |
| Conversations.SortByTimeSpec | src/conversation/mod.rs:239 | sorting orders the messages by time and keeps each of them as often as it occurs |
| Conversations.SortByTimeIds | src/conversation/mod.rs:239 | sorting keeps the set of ids and their uniqueness |
| Conversations.Recent | src/conversation/mod.rs:227-228 | the last twenty messages, or all of them when there are fewer |
| Conversations.Compact | src/conversation/mod.rs:216-242 | the compacted history is sorted by time and holds only messages of the conversation that are system or long (over 1000 bytes) or among the last twenty; it holds every system or long message and a message under the id of each of the last twenty; with unique ids, the last twenty themselves |
| Conversations.KeepImportant | src/conversation/mod.rs:220-224 | exactly the system and long messages, ids staying unique |
| Conversations.MergeRecent | src/conversation/mod.rs:231-236 | everything kept stays, nothing but kept or recent messages is in the result, and every recent message's id ends up present |
| Conversations.AppendNewId | src/conversation/mod.rs:233-235 | appending a message with a new id keeps every id, adds its own, and keeps ids unique |
| Conversations.UniqueAppend | src/conversation/mod.rs:233-235 | appending a later message of a list with unique ids to messages taken from before it keeps ids unique |
| Conversations.KeptUnderSameId | src/conversation/mod.rs:233 | with unique ids, a message whose id is already kept is itself kept |
| Conversations.ConversationManager.constructor | src/conversation/mod.rs:80-87 | no active conversation and an empty cache of at most 100 conversations |
| Conversations.ConversationManager.AddToCache | src/conversation/mod.rs:321-329 | the conversation is cached under its id; other cached entries are old ones unchanged; below the limit nothing is evicted |
| Conversations.ConversationManager.Save | src/conversation/mod.rs:295-306 | fails iff the write fails, with its message and no cache change; a successful write caches the conversation, other cached entries keeping their values, and with room in the cache nothing else changes |
| Conversations.ConversationManager.CreateConversation | src/conversation/mod.rs:104-130 | on a successful write a new empty conversation with zero usage, titled as given or "Conversation " and the time, becomes active and is cached, other cached entries keeping their values (exactly one entry more when the cache has room); a failed write is that write's error and leaves the active conversation and the cache as they were |
| Conversations.ConversationManager.LoadConversation | src/conversation/mod.rs:133-146 | a cached conversation becomes active with the cache unchanged; otherwise the file's conversation becomes active and is cached under its id, other entries keeping their values (exactly one entry more when the cache has room), or the file's error is returned with nothing changed |
| Conversations.ConversationManager.AddMessage | src/conversation/mod.rs:149-179 | without an active conversation an error and no change; otherwise the message is appended, the usage (if any) added to the totals, and the totals keep matching the messages' usages; a failed write is reported after the change |
| Conversations.ConversationManager.GetConversationMessages | src/conversation/mod.rs:187-192 | the active conversation's messages, or none |
| Conversations.ConversationManager.GetMessageCount | src/conversation/mod.rs:332-338 | the number of the active conversation's messages, 0 without one |
| Conversations.ConversationManager.ClearCurrentConversation | src/conversation/mod.rs:195-211 | no messages and zero totals; nothing at all without an active conversation |
| Conversations.ConversationManager.CompactConversation | src/conversation/mod.rs:214-257 | the active conversation keeps what `Compact` keeps and nothing else (only system, long or recent messages), and records the instructions when given; nothing happens without one |
| Refactor.ReplaceAll | src/refactor/mod.rs:366 | `str::replace`: a text not containing the pattern is returned unchanged |
| Refactor.Placeholder | src/refactor/mod.rs:365 | a placeholder is "$" followed by the group's index |
| Refactor.ApplyReplacement | src/refactor/mod.rs:359-370 | the loop over the capture groups computes the fold that replaces each matched group's placeholder in turn |
| Refactor.Resolve | src/refactor/mod.rs:362-368 | filling the holes of the first groups keeps the number of template pieces |
| Refactor.ReplaceSkipsFree | src/refactor/mod.rs:366 | replacing a "$"-pattern skips a prefix that holds no "$" |
| Refactor.ReplaceSkipsOtherHole | src/refactor/mod.rs:366 | single-digit placeholders of different groups do not match each other |
| Refactor.ReplaceAtHole | src/refactor/mod.rs:366 | a placeholder at the front is replaced by the group's text |
| Refactor.ReplaceStep | src/refactor/mod.rs:362-368 | one step of the loop fills exactly the holes of that group |
| Refactor.ResolveSkip | src/refactor/mod.rs:363 | a group that did not match changes nothing |
| Refactor.ResolveNone | src/refactor/mod.rs:360 | before the loop the template is unchanged |
| Refactor.ResolveAll | src/refactor/mod.rs:362-368 | after every group the resolved template is the filled template |
| Refactor.SubstitutedResolves | src/refactor/mod.rs:362-368 | the loop's fold after n groups is the template with the holes of those n groups filled |
| Refactor.SubstituteFills | src/refactor/mod.rs:359-370 | `apply_replacement` puts every matched group's text where its placeholder stands, for templates with single-digit placeholders and groups whose text holds no "$" |
| Refactor.NoPlaceholderUnchanged | src/refactor/mod.rs:359-370 | a template without "$" comes back as it is |
| Refactor.UseConstRenders | src/refactor/mod.rs:404 | the pieces of the `use_const` template render as "const $1 = $2;" |
| Refactor.UseConstFills | src/refactor/mod.rs:404 | filled with the groups of `let x = 5;` they give "const x = 5;" |
| Refactor.UseConstExample | src/refactor/mod.rs:359-370 | `apply_replacement` of "const $1 = $2;" on `let x = 5;` (groups the line, "x", "5") gives "const x = 5;" |
| Refactor.SuggestionTypeFor | src/refactor/mod.rs:349-356 | each of the three named rules has its own type and every other name simplifies |
| Refactor.RuleSuggestions | src/refactor/mod.rs:330-343 | at most one suggestion per line looked at |
| Refactor.SuggestionsOnMatchingLines | src/refactor/mod.rs:330-343 | each suggestion spans exactly one line the pattern matches and quotes it, with an id of rule name and line number |
| Refactor.SuggestionsOrdered | src/refactor/mod.rs:330-343 | suggestions come in strictly increasing line order |
| Refactor.SuggestionsComplete | src/refactor/mod.rs:330-343 | every matching line has its suggestion |
| Refactor.ApplyRule | src/refactor/mod.rs:319-346 | the loop over the file's lines yields exactly the rule's suggestions |
| Refactor.CustomFor | src/refactor/mod.rs:168-172 | exactly the custom rules that list the extension |
| Refactor.AllSuggestionsSnoc | src/refactor/mod.rs:161-172 | one more rule appends its own suggestions after the others' |
| Refactor.AllSuggestionsFromRules | src/refactor/mod.rs:161-172 | every suggestion lies on a line that one of the rules matches |
| Refactor.RunRules | src/refactor/mod.rs:161-172 | the loop over the rules collects all their suggestions, rule after rule |
| Refactor.CustomStep | src/refactor/mod.rs:168-172 | one more custom rule adds its suggestions iff it lists the extension |
| Refactor.RefactorEngine.constructor | src/refactor/mod.rs:138-147 | the built-in rules for "rs", "js" and "ts" and no custom rules |
| Refactor.RefactorEngine.ApplicableRules | src/refactor/mod.rs:161-172 | an extension that is not supported has no rules to run |
| Refactor.RefactorEngine.AddCustomRule | src/refactor/mod.rs:303-306 | the rule goes last among the custom rules and every extension it lists becomes supported |
| Refactor.ExtensionOf | src/refactor/mod.rs:154-156 | the file name's extension, without a dot, or "" when the name has none |
| Refactor.RefactorEngine.AnalyzeFile | src/refactor/mod.rs:150-175 | a failed read is returned; otherwise the suggestions of the built-in rules and then of the custom rules for the path's own extension |
| Refactor.UnsupportedFileHasNoSuggestions | src/refactor/mod.rs:150-175 | a file whose extension no rule names gets no suggestions |
| Refactor.LineIndex | src/refactor/mod.rs:268 | a 1-based line number as an index, line 0 also giving index 0 |
| Refactor.MoveLine | src/refactor/mod.rs:285-293 | the line at the source index ends at the target index, the lines are a permutation of the old ones |
| Refactor.EditLines | src/refactor/mod.rs:264-294 | Insert at an index up to the length shifts the rest by one; Delete removes exactly that line; Replace changes exactly that line; Move permutes the lines; any other position leaves them as they were |
| Refactor.MovePastEndPanics | src/refactor/mod.rs:285-293 | as written, moving line 1 of a two-line file to line 3 panics |
| Refactor.MoveAgreesBelowLength | src/refactor/mod.rs:285-293 | for every other target the check as written and the corrected one agree |
| Refactor.InsertThenDelete | src/refactor/mod.rs:267-278 | deleting the line just inserted gives the lines back |
| Refactor.MoveBack | src/refactor/mod.rs:285-293 | moving a line and moving it back restores the lines |
| Refactor.ExecuteEdit | src/refactor/mod.rs:260-300 | a failed read or write is returned; otherwise the edited lines joined with "\n" are written |
| Refactor.ExecuteEditReadsBack | src/refactor/mod.rs:260-300 | reading the written file back gives the edited lines, when they are plain lines and the last one is not empty |
| Refactor.TailStart | src/refactor/mod.rs:216-224 | the kept tail starts between the range's start and the end of the file |
| Refactor.Spliced | src/refactor/mod.rs:216-230 | the lines before the start stay, the new lines follow, then the lines after the range (cut at the end of the file) |
| Refactor.SuggestionResult | src/refactor/mod.rs:203-236 | an error "Line range exceeds file length" iff the range ends or starts past the file's end; otherwise the range's lines are replaced by the suggested ones |
| Refactor.ReversedRangePanics | src/refactor/mod.rs:207-230 | as written, the range (3, 1) over a one-line file passes the check and the insertion panics; the corrected check refuses it |
| Refactor.SuggestionAgreesWithinFile | src/refactor/mod.rs:207-230 | whenever the start lies within the file, the check as written and the corrected one agree |
| Refactor.SingleLineSuggestion | src/refactor/mod.rs:203-236 | a suggestion for line n of the file replaces exactly that line |
| Refactor.ApplySuggestionLines | src/refactor/mod.rs:207-230 | the remove and insert loops compute the corrected splice |
| Refactor.ApplySuggestion | src/refactor/mod.rs:203-236 | a failed read, a refused range or a failed write is returned; otherwise the spliced lines joined with "\n" are written |
| Refactor.AppliedIds | src/refactor/mod.rs:243-249 | with no failure, the ids of all suggestions, in order |
| Refactor.FailureMessages | src/refactor/mod.rs:243-249 | no messages iff nothing failed |
| Refactor.ApplySuggestions | src/refactor/mod.rs:239-257 | Ok iff no suggestion failed, then with every id in order; otherwise one error listing every failure |
| Database.DirectionKeyword | src/database/mod.rs:435-442 | "ASC" iff ascending, "DESC" iff descending |
| Database.ListClause | src/database/mod.rs:460-470 | a list clause is empty iff its list is, and otherwise starts with a space and its keyword |
| Database.NumberClause | src/database/mod.rs:472-478 | a number clause is empty iff unset, and otherwise is a space, the keyword and the number |
| Database.OrderBy | src/database/mod.rs:435-442 | one more "column ASC" or "column DESC" after the earlier ones, and nothing else changes |
| Database.BuildSelect | src/database/mod.rs:454-485 | a SELECT query without parameters, starting with "SELECT columns FROM table" |
| Database.JoinListPart | src/database/mod.rs:460-470 | appending a list clause as a separate part is the same as appending it with its own leading space |
| Database.JoinNumberPart | src/database/mod.rs:472-478 | the same for LIMIT and OFFSET |
| Database.SelectIsClauses | src/database/mod.rs:454-485 | the SQL is the present clauses separated by single spaces, in the fixed order head, joins, WHERE, ORDER BY, LIMIT, OFFSET |
| Database.SelectCallsCommute | src/database/mod.rs:425-452 | builder calls of different kinds commute, and a later limit replaces an earlier one |
| Database.BareSelect | src/database/mod.rs:412-423 | a select with no clause renders as "SELECT columns FROM table" |
| Database.ValueKeepsPairs | src/database/mod.rs:506-510 | `value` keeps columns and values paired, the new column and value at the same position |
| Database.BuildInsert | src/database/mod.rs:512-524 | an INSERT query without parameters, the column list in parentheses after the table, then `VALUES (`, and the text between that and the closing parenthesis is exactly the values joined by ", " |
| Database.EmptyInsert | src/database/mod.rs:497-524 | an insert with no values still renders, as "INSERT INTO table () VALUES ()" |
| Database.BuildUpdate | src/database/mod.rs:555-570 | an UPDATE query: the SET list alone without conditions, and followed by ` WHERE ` and the conditions joined by ` AND ` when there are some |
| Database.BuildDelete | src/database/mod.rs:594-606 | a DELETE query: `DELETE FROM` and the table alone without conditions, and followed by ` WHERE ` and the conditions joined by ` AND ` when there are some |
| Database.MemoryCacheLayer.constructor | src/database/mod.rs:795-800 | the cache starts empty |
| Database.MemoryCacheLayer.Get | src/database/mod.rs:805-812 | the stored bytes, found iff the key is present |
| Database.MemoryCacheLayer.Set | src/database/mod.rs:814-818 | the bytes are stored with the current time; the time-to-live plays no part |
| Database.MemoryCacheLayer.Delete | src/database/mod.rs:820-823 | true iff the key was there; it is gone afterwards |
| Database.MemoryCacheLayer.Clear | src/database/mod.rs:825-829 | nothing is stored |
| Database.StoreReadDelete | src/database/mod.rs:805-823 | whatever the time-to-live, a stored value is read back, and of two deletes only the first finds it |
| TerminalApplication.EditInput | src/ui/terminal_app.rs:260-266 | a character is appended, Backspace drops the last one, other keys leave the input alone |
| TerminalApplication.Reply | src/ui/terminal_app.rs:338-358 | the greeting iff the lower-cased message contains "hello" or "hi"; the help reply iff it contains "help" but neither of those |
| TerminalApplication.HistoryUp | src/ui/terminal_app.rs:226-230 | from no selection to the newest entry, from an entry to the one before it, staying at the oldest; always a valid index |
| TerminalApplication.UpStep | src/ui/terminal_app.rs:223-237 | Up with the guard corrected: whenever an entry is selected the input shows that entry |
| TerminalApplication.Ups | src/ui/terminal_app.rs:223-237 | k presses of Up from an empty input leave a valid selection |
| TerminalApplication.UpsWalkBack | src/ui/terminal_app.rs:223-237 | with the guard corrected, the k-th press of Up shows the k-th newest entry, then stays at the oldest |
| TerminalApplication.SecondUpAsWritten | src/ui/terminal_app.rs:223-266 | as written, the second Up over a two-entry history finds the newest entry in the input and drops the selection instead of showing the older entry |
| TerminalApplication.UpNeverStepsBackAsWritten | src/ui/terminal_app.rs:223-237 | as written, whenever an entry is selected and shown, Up drops the selection: the branch that steps back is never taken |
| TerminalApplication.CommandReply | src/ui/terminal_app.rs:433-535 | "status" reports the mode and counts, the seven demonstration commands their fixed texts (written out in DemoText), anything else the unknown-command message quoting the command |
| TerminalApplication.TerminalApp.constructor | src/ui/terminal_app.rs:95-109 | chat mode, empty input, no messages, no history, "Ready" status and the welcome pending |
| TerminalApplication.TerminalApp.AddMessage | src/ui/terminal_app.rs:361-373 | the message goes last and the list scrolls to it; nothing else changes |
| TerminalApplication.TerminalApp.Welcome | src/ui/terminal_app.rs:120-135 | three welcome messages are added once, then never again |
| TerminalApplication.TerminalApp.SendMessage | src/ui/terminal_app.rs:319-335 | the user's message and then the canned reply are added; loading is over and the status says it is ready |
| TerminalApplication.TerminalApp.HandleKeyEvent | src/ui/terminal_app.rs:183-207 | Esc without modifiers toggles chat and the exit confirmation; in chat mode Enter submits a non-blank input (history, both messages, empty input) and leaves a blank one alone, Up browses back, Backspace drops the last character, Down steps forward through the history or back to an empty input after the newest entry; a character is appended ('?' on an empty input opens help); the history selection is kept by '/' and '?' on an empty input and by Esc without modifiers, and is cleared by every other key that reaches the chat handler's default branch (Backspace, characters, other keys, Down with nothing selected); in help and exit-confirmation modes the mode and quit flag as their handlers set them |
| TerminalApplication.TerminalApp.SubmitInput | src/ui/terminal_app.rs:212-222 | a non-blank input goes to the history, is sent and emptied, and the selection is dropped; a blank one changes nothing |
| TerminalApplication.TerminalApp.HistoryDown | src/ui/terminal_app.rs:238-251 | the next newer entry is shown, or the input is emptied and the selection dropped after the newest |
| TerminalApplication.TerminalApp.HandleChatKey | src/ui/terminal_app.rs:210-269 | Enter submits, Up and Down browse the history (with the corrected Up guard), '?' on an empty input opens help, characters are typed and Backspace drops the last one; only Enter changes the history and the messages; the history selection is kept by '/' and '?' on an empty input and cleared by every key that falls to the default branch (Backspace, Esc, other keys, Down with nothing selected, any other character), and Esc, other keys and Down with nothing selected leave the input alone |
| TerminalApplication.TerminalApp.HandleHelpKey | src/ui/terminal_app.rs:293-301 | Esc, 'q' or Enter return to chat; nothing else changes |
| TerminalApplication.TerminalApp.HandleExitConfirmKey | src/ui/terminal_app.rs:304-316 | 'y' quits; 'n' or Esc go back to chat with "Exit cancelled" |
| TerminalApplication.TerminalApp.ClearConversation | src/ui/terminal_app.rs:453-457 | only the confirmation remains, the list scrolls to the top and the status names the command |
| TerminalApplication.TerminalApp.RunCommand | src/ui/terminal_app.rs:432-540 | the command is echoed; "clear" leaves only the confirmation; "help"/"h" add the command list; "exit"/"quit" ask for confirmation; any other name is answered with the given reply text and named in the status; the history and input stay |
| TerminalApplication.TerminalApp.ExecuteCommand | src/ui/terminal_app.rs:417-540 | plain text is answered as chat; "/clear" clears; "/help" lists the commands; "/exit" and "/quit" ask for confirmation; any other command is echoed and answered with CommandReply of its lower-cased name (status, demonstration text or unknown-command message), with the status naming it |
| Ui.InsertAt | src/ui/mod.rs:722-726 | the character stands at the cursor position, with the text before and after it unchanged |
| Ui.RemoveAt | src/ui/mod.rs:728-734 | exactly the character at the position goes |
| Ui.RemoveAfterInsert | src/ui/mod.rs:722-734 | typing a character and deleting it with Backspace gives the input back |
| Ui.WordStart | src/ui/mod.rs:683-692 | Ctrl+W stops at the start of the input or just after a space, and only non-spaces lie between there and the cursor |
| Ui.FirstWord | src/ui/mod.rs:761-763 | the first whitespace-separated word, a non-empty run without whitespace; none iff the text is blank |
| Ui.TakeWord | src/ui/mod.rs:761 | the word is a non-empty prefix without whitespace that ends at whitespace or at the end of the text |
| Ui.DivAtMost | src/ui/mod.rs:196 | integer division stays at or below a bound the dividend respects |
| Ui.DivAtLeast | src/ui/mod.rs:196 | and at or above one it exceeds |
| Ui.ScaledBounds | src/ui/mod.rs:189-196 | the scaled quotient lies on the same side of a bound as the scaled value |
| Ui.Percentage | src/ui/mod.rs:189-193 | 0 for an empty total; at most 100 when the current does not pass the total, at least 100 when it reaches it |
| Ui.Filled | src/ui/mod.rs:196 | at most the 40 cells of the bar for a percentage up to 100, all of them from 100 on |
| Ui.Repeat | src/ui/mod.rs:201-202 | n copies of the character |
| Ui.ProgressBar | src/ui/mod.rs:188-215 | a line exists iff the filled cells fit the width (the unsigned subtraction does not fail), always when the current does not pass the total; it is bracketed, with '=' in the filled cells |
| Ui.CompleteProgressIsFull | src/ui/mod.rs:188-215 | a current equal to a non-zero total reports 100 and fills every cell |
| Ui.CharAtByte | src/ui/mod.rs:722-734 | the character index whose preceding text takes exactly that many UTF-8 bytes |
| Ui.AsciiCharAtByte | src/ui/mod.rs:722-734 | on ASCII text the byte and character positions coincide |
| Ui.TypeAgreesOnAscii | src/ui/mod.rs:722-726 | on ASCII input the byte cursor as written and the character cursor agree |
| Ui.TypeAfterWideCharPanics | src/ui/mod.rs:722-726 | as written, typing 'é' into an empty input leaves the cursor at byte 1, inside the character, and the next typed character panics |
| Ui.TerminalUi.constructor | src/ui/mod.rs:96-104 | cooked mode, no messages, an empty input, the cursor at 0 |
| Ui.TerminalUi.EnableRawMode | src/ui/mod.rs:107-114 | raw mode afterwards unless the terminal refused, whose error is then returned; nothing else changes |
| Ui.TerminalUi.DisableRawMode | src/ui/mod.rs:117-124 | cooked mode afterwards unless the terminal refused; nothing else changes |
| Ui.TerminalUi.AddMessage | src/ui/mod.rs:127-134 | the message goes last; nothing else changes |
| Ui.TerminalUi.ClearMessages | src/ui/mod.rs:137-139 | no messages; nothing else changes |
| Ui.TerminalUi.DeleteWord | src/ui/mod.rs:683-692 | the characters between the word start and the cursor are removed and the cursor moves there |
| Ui.TuiCommandEffect | src/ui/mod.rs:760-797 | "/clear" leaves only its confirmation; every other command keeps the earlier messages and adds at most one, and exactly one unless it is quit or exit; the added reply is stamped now and is an error exactly for unknown commands; the quit flag ends up raised iff it was or the command is quit or exit |
| Ui.TerminalUi.HandleTuiCommand | src/ui/mod.rs:760-797 | the messages and quit flag become TuiCommandEffect of the old ones; per case: dispatch on the first word after the '/': help lists the commands, clear leaves only its confirmation, status reports the counts, quit and exit stop, anything else is an error message quoting the command |
| Ui.TerminalUi.Submit | src/ui/mod.rs:701-719 | a non-blank input becomes a user message, the input empties, and it is echoed or, when it starts with '/', run: the messages and quit flag become TuiCommandEffect of the list with the user message appended; a blank one changes nothing, and only a command moves the quit flag |
| Ui.TerminalUi.HandleKeyEvent | src/ui/mod.rs:661-757 | stops iff Esc or Ctrl+C; Ctrl+L clears the screen, Ctrl+U the input; Ctrl+W deletes back to the word start before the cursor; Enter on a non-blank input empties it and adds the user message and the echo, or runs the command, leaving the messages and quit flag as TuiCommandEffect gives them for the list with the user message appended, and on a blank input changes nothing; characters are inserted and Backspace removes at the cursor; the arrows, Home and End move it within the input |
| Plugins.NewInstance | src/plugins/mod.rs:166-173 | a fresh instance is unloaded, has no configuration, and keeps the metadata, commands and path it was given |
| Plugins.SetConfig | src/plugins/mod.rs:196-200 | the configuration is stored only when the plugin's validation accepts it; otherwise the validation error is returned |
| Plugins.ActivateStatus | src/plugins/mod.rs:264-282 | activation succeeds iff the plugin is already Active or is not in Error and its initialisation succeeds, and then it is Active; from Error it fails naming the state |
| Plugins.DeactivateStatus | src/plugins/mod.rs:285-297 | only an Active plugin is shut down and becomes Disabled; the call fails iff that shutdown fails; any other status is kept |
| Plugins.ActivateDeactivateCycle | src/plugins/mod.rs:264-297 | with hooks that succeed, activate, deactivate, activate ends Active with Disabled in between |
| Plugins.ErrorIsTerminal | src/plugins/mod.rs:264-297 | a plugin in the Error state can be neither activated nor moved out of Error by deactivation |
| Plugins.ActiveCommands | src/plugins/mod.rs:348-362 | exactly the Active plugins with a non-empty command list, each with its own commands |
| Plugins.ExampleExecute | src/plugins/mod.rs:403-411 | the example plugin's "hello" greets by plugin name; anything else is an unknown-command error naming the command |
| Plugins.ExampleRunsWhatItLists | src/plugins/mod.rs:403-425 | the example plugin runs exactly the commands it lists |
| Plugins.PluginManager.constructor | src/plugins/mod.rs:205-212 | no plugins, no directories, an empty global configuration |
| Plugins.PluginManager.AddPluginDirectory | src/plugins/mod.rs:215-217 | the directory goes last; the plugins are untouched |
| Plugins.PluginManager.LoadPlugin | src/plugins/mod.rs:246-261 | an unloaded example instance is registered under the manifest's name, replacing any plugin of that name |
| Plugins.PluginManager.ActivatePlugin | src/plugins/mod.rs:264-282 | an unknown name is an error and changes nothing; otherwise the plugin takes the status ActivateStatus gives, and on success its commands are offered |
| Plugins.PluginManager.DeactivatePlugin | src/plugins/mod.rs:285-297 | an unknown name is an error; otherwise the plugin takes the status DeactivateStatus gives, and on success none of its commands are offered |
| Plugins.PluginManager.ConfigurePlugin | src/plugins/mod.rs:196-200 | an unknown name or a rejected configuration is an error and changes nothing; otherwise only that plugin's configuration changes |
| Plugins.PluginManager.ListPlugins | src/plugins/mod.rs:300-307 | exactly the name, status and metadata of every managed plugin |
| Plugins.PluginManager.ExecutePluginCommand | src/plugins/mod.rs:310-329 | an unknown plugin is a not-found error, an inactive one a not-active error; only an Active plugin runs the command and its answer is returned |
| Plugins.PluginManager.GetAllCommands | src/plugins/mod.rs:348-362 | the commands of exactly the Active plugins that offer some |
| Inference.FindModel | src/inference/mod.rs:672 | the position of the first instance of the model, none iff no instance is of that model |
| Inference.FindId | src/inference/mod.rs:691 | the position of the first instance with the id, none iff no instance has it |
| Inference.Without | src/inference/mod.rs:673 | removing one position leaves one fewer instance and exactly the others |
| Inference.CreateInstance | src/inference/mod.rs:704-717 | a new instance of the model is initialising and has never been used |
| Inference.ModelPool.constructor | src/inference/mod.rs:659-665 | no available and no busy instances |
| Inference.ModelPool.GetInstance | src/inference/mod.rs:668-685 | none iff no available instance is of the model, and then nothing changes; otherwise the first one leaves the available list and joins the end of the busy list, Busy, with its use counted; the number of instances is kept |
| Inference.ModelPool.ReleaseInstance | src/inference/mod.rs:688-701 | the first busy instance with the id leaves the busy list and the instance rejoins the available ones as Available; an id that is not busy changes nothing; the number of instances is kept |
| Inference.GetThenReleaseReturns | src/inference/mod.rs:668-701 | releasing an instance just taken, whose id no other busy instance has, finds it at the end of the busy list and restores that list |
| Inference.ModelManager.constructor | src/inference/mod.rs:578-593 | no loaded models and no configurations |
| Inference.ModelManager.LoadModel | src/inference/mod.rs:596-617 | the model is Ready under its name with version "1.0.0" and its configuration is kept, replacing any earlier one |
| Inference.ModelManager.UnloadModel | src/inference/mod.rs:640-649 | the model and its configuration are forgotten; nothing else changes |
| Inference.ModelManager.ListModels | src/inference/mod.rs:652-654 | exactly the loaded models |
| Inference.ModelManager.GetInstance | src/inference/mod.rs:620-631 | a new instance of the model, available and unused |
| Inference.CacheKey | src/inference/mod.rs:487-494 | the key starts with the model name and a colon |
| Inference.Execute | src/inference/mod.rs:539-562 | the response answers the request, echoes its input and names the instance; the token count fits 32 bits and, when the input's byte length does, is at most a quarter of it |
| Inference.InferMetricsAsWritten | src/inference/mod.rs:387-435 | as written, one more inference and, on a cache hit, one more active inference that is never counted out; a success only on a miss |
| Inference.InferMetrics | src/inference/mod.rs:387-435 | one more inference; the active count is back where it was; a success and the tokens are counted only when the request was not served from the cache |
| Inference.InferHit | src/inference/mod.rs:397-402 | (with get_from_cache at lines 497-507) with caching on and a fresh entry: the stored response, one more hit and no miss, the same keys, one more use of that entry at now with its expiry kept, every other entry unchanged, no success counted |
| Inference.InferMiss | src/inference/mod.rs:405-435 | (with the cache-miss path of get_from_cache and cache_response at lines 508-536) otherwise the request is executed and counted as a success; with caching on one more miss, the key's (possibly expired) entry replaced by the response fresh until now plus the time to live, the other entries unchanged; with caching off cache and statistics untouched |
| Inference.InferKeepsCount | src/inference/mod.rs:497-536 | every `infer` keeps the entry counter equal to the number of entries |
| Inference.BatchResponses | src/inference/mod.rs:438-445 | the i-th response of a sequential batch is what `infer` gives for the i-th request in the state the first i requests left |
| Inference.BatchCounters | src/inference/mod.rs:387-445 | over a sequential batch every request is counted once and none stays active, successes plus cache hits grow by the number of requests, caching off leaves the cache alone, and the entry counter stays exact |
| Inference.CacheHitLeavesActiveAsWritten | src/inference/mod.rs:391-402 | as written, a request served from the cache leaves one inference counted as active for good |
| Inference.MetricsAgreeOnMiss | src/inference/mod.rs:405-435 | as written and as intended, the counters agree whenever the request is not served from the cache |
| Inference.InferenceEngine.constructor | src/inference/mod.rs:373-384 | an empty cache and zero statistics and counters |
| Inference.InferenceEngine.ClearCache | src/inference/mod.rs:478-484 | no entries and every cache counter at zero; the inference counters are kept |
| Inference.InferenceEngine.GetFromCache | src/inference/mod.rs:497-517 | a response iff the entry exists and has not expired, and then its use is counted as a hit; an expired entry is removed and, like a missing one, counted as a miss |
| Inference.InferenceEngine.CacheResponse | src/inference/mod.rs:520-536 | the response is stored until now plus the time to live and one more entry is counted |
| Inference.InferenceEngine.RunRequest | src/inference/mod.rs:405-435 | the response is the execution on a new instance, cached when caching is on, counted as a success and no longer active |
| Inference.InferenceEngine.Infer | src/inference/mod.rs:387-435 | the new cache, statistics and counters and the response are InferStep of the old ones (see InferHit and InferMiss); with caching on, a fresh cached response is returned as stored, otherwise the request is executed; the counters move as InferMetrics says; with caching on the response is in the cache afterwards |
| Inference.InferenceEngine.InferCore | src/inference/mod.rs:387-435 | the new cache, statistics, counters and response are InferStep of the old ones, and the entry counter stays exact |
| Inference.InferenceEngine.LookUpOrRun | src/inference/mod.rs:397-416 | with caching on and the request counted: a fresh entry gives HitStep (served, one more use and hit, no longer active), anything else the execution and MissStep (one more miss, the response stored) |
| Inference.InferenceEngine.BatchInferSequential | src/inference/mod.rs:438-445 | the new cache, statistics, counters and responses are BatchStep of the old ones: `infer` on each request in turn (see BatchResponses and BatchCounters); one response per request, each counted once, none left active, successes plus hits grow by the number of requests |
| Watcher.DefaultConfig | src/watcher/mod.rs:73-90 | recursive, a 100 ms debounce, at most 10000 files, no extension whitelist, and a non-empty list of ignore patterns |
| Watcher.StarPattern | src/watcher/mod.rs:279-287 | a pattern with one '*' ignores exactly the paths that start with the part before it and end with the part after it |
| Watcher.ManyStarsNeverMatch | src/watcher/mod.rs:279-287 | a pattern with two or more '*' ignores nothing |
| Watcher.NoExtensionPassesWhitelist | src/watcher/mod.rs:294-300 | a path without an extension is ignored iff one of the ignore patterns matches it, whatever the whitelist |
| Watcher.DefaultIgnoresTemporaryFiles | src/watcher/mod.rs:73-90 | the default configuration ignores a ".tmp" file |
| Watcher.DefaultIgnoresNodeModules | src/watcher/mod.rs:73-90 | the default configuration ignores a path under node_modules |
| Watcher.EventTypeOf | src/watcher/mod.rs:251-256 | only creation, modification and removal become events, as Created, Modified and Deleted |
| Watcher.ProcessEvent | src/watcher/mod.rs:235-271 | an ignored path or one seen less than the debounce delay ago gives nothing and leaves the cache; otherwise the path's time is recorded and an event of the mapped kind is produced iff the kind maps to one |
| Watcher.SecondEventWithinDelayDropped | src/watcher/mod.rs:240-248 | of two events on one path closer together than the delay, the second is dropped |
| Watcher.AccessDebouncesModify | src/watcher/mod.rs:240-256 | an access is not reported but still refreshes the path's time, so a modification right after it is dropped although it alone would be reported |
| Watcher.ShouldIgnorePath | src/watcher/mod.rs:274-304 | the loop over the patterns and the whitelist decides exactly as the specification of ignored paths |
| Watcher.Watchable | src/watcher/mod.rs:307-327 | never more than the files found |
| Watcher.CountFiles | src/watcher/mod.rs:307-327 | the count is the number of found files that are not ignored |
| Watcher.FileWatcher.constructor | src/watcher/mod.rs:94-104 | no watcher, no watched paths, an empty debounce cache, not running |
| Watcher.FileWatcher.WatchPath | src/watcher/mod.rs:107-158 | a missing path and too many watchable files are errors with their messages; success iff the path exists, the files fit, and the watcher can be created and can watch; then the path is watched with its configuration, and a newly created watcher starts the loop |
| Watcher.FileWatcher.UnwatchPath | src/watcher/mod.rs:161-172 | a refusal of the watcher is an error that keeps the path; otherwise the path is forgotten |
| Watcher.FileWatcher.Stop | src/watcher/mod.rs:180-184 | not running, no watcher, no watched paths |
| Watcher.FileWatcher.GetWatchedPaths | src/watcher/mod.rs:187-189 | exactly the watched paths |
| Watcher.FileWatcher.ProcessNotifyEvent | src/watcher/mod.rs:218-271 | no event without a path or a watched configuration; otherwise the first path is processed as ProcessEvent says under the configuration of some watched path |
| Workflow.PriorityRank | src/workflow/mod.rs:279-284 | ranks run from 1 to 4, Low exactly at 1 and Critical exactly at 4 |
| Workflow.EngineSchedulerConfig | src/workflow/mod.rs:609-613 | a 60-second interval, a queue of at most 10000, a 300-second look-ahead |
| Workflow.ExecuteTask | src/workflow/mod.rs:714-729 | every task is reported a success after 100 ms, with no output and no error |
| Workflow.Insert | src/workflow/mod.rs:762-767 | the queue grows by one and holds exactly the old entries and the new one |
| Workflow.InsertStep | src/workflow/mod.rs:765 | an entry scheduled later than the new one moves behind it |
| Workflow.InsertPosition | src/workflow/mod.rs:762-767 | in a sorted queue the new entry lands after every entry scheduled no later and before every later one, the others keeping their order |
| Workflow.InsertKeepsSorted | src/workflow/mod.rs:762-767 | scheduling keeps the queue sorted by time |
| Workflow.Due | src/workflow/mod.rs:775-782 | no more entries than the queue |
| Workflow.Waiting | src/workflow/mod.rs:775-782 | no more entries than the queue |
| Workflow.DuePartition | src/workflow/mod.rs:775-782 | every entry goes to exactly one of the due and the waiting entries |
| Workflow.DueAreDue | src/workflow/mod.rs:776 | every due entry is scheduled at or before now |
| Workflow.WaitingAreLater | src/workflow/mod.rs:776 | every waiting entry is scheduled after now |
| Workflow.WaitingFromQueue | src/workflow/mod.rs:775-782 | every waiting entry comes from the queue |
| Workflow.WaitingSorted | src/workflow/mod.rs:775-782 | what stays in a sorted queue is still sorted |
| Workflow.SortedDueIsPrefix | src/workflow/mod.rs:762-782 | in a sorted queue the due entries are a prefix and the waiting ones the rest |
| Workflow.AllDue | src/workflow/mod.rs:775-782 | when every entry is due, all of them are returned and nothing stays |
| Workflow.WorkflowScheduler.constructor | src/workflow/mod.rs:755-760 | an empty queue with the given configuration |
| Workflow.WorkflowScheduler.ScheduleWorkflow | src/workflow/mod.rs:762-767 | succeeds, and the queue is the old one with the entry inserted in time order; sortedness is kept |
| Workflow.WorkflowScheduler.GetDueWorkflows | src/workflow/mod.rs:769-784 | succeeds, returns the due entries in queue order and keeps only the waiting ones |
| Workflow.WorkflowEventBus.constructor | src/workflow/mod.rs:732-739 | nothing sent and no listeners |
| Workflow.WorkflowEventBus.PublishEvent | src/workflow/mod.rs:741-745 | the event goes last among the events sent; the listeners are kept |
| Workflow.WorkflowEventBus.Subscribe | src/workflow/mod.rs:747-751 | the listener's name is registered, a second one of that name replacing the first |
| Workflow.NewInstance | src/workflow/mod.rs:634-675 | a new instance is Pending, with its input, no output, no start or end time and no error |
| Workflow.StatusOf | src/workflow/mod.rs:686-691 | the instance's status iff it exists, otherwise the not-found error |
| Workflow.Cancel | src/workflow/mod.rs:694-702 | a known instance is Cancelled and stamped completed; no other instance changes and none is added |
| Workflow.CancelThenStatus | src/workflow/mod.rs:686-702 | after a cancel a known instance reports Cancelled and an unknown one is still not found |
| Workflow.WorkflowEngine.constructor | src/workflow/mod.rs:600-623 | no definitions, no instances, a fresh event bus and an empty scheduler with the engine's configuration |
| Workflow.WorkflowEngine.RegisterWorkflow | src/workflow/mod.rs:626-631 | the definition is stored under its id, replacing any earlier one |
| Workflow.WorkflowEngine.StartWorkflow | src/workflow/mod.rs:634-675 | an unknown definition is the not-found error and changes nothing; otherwise a new Pending instance is stored, a WorkflowCreated event is published, and the instance id is returned |
| Workflow.WorkflowEngine.GetWorkflowStatus | src/workflow/mod.rs:686-691 | the instance's status iff it exists |
| Workflow.WorkflowEngine.CancelWorkflow | src/workflow/mod.rs:694-702 | succeeds whether or not the instance exists, and the instances become Cancel of the old ones |
| Workflow.StartedIsPending | src/workflow/mod.rs:634-691 | a workflow just started reports Pending |
| CliCommands.Found | src/main.rs:1082-1087 | never more keywords than there are |
| CliCommands.FoundMembers | src/main.rs:1082-1087 | a keyword is found iff it occurs in the text |
| CliCommands.CollectKeywords | src/main.rs:1071-1087 | the loop collects exactly the keywords occurring in the lowered content, in keyword order |
| CliCommands.InsertStringMultiset | src/main.rs:1091 | inserting into the sorted list adds exactly the one string |
| CliCommands.InsertStringSorted | src/main.rs:1091 | inserting keeps the list sorted |
| CliCommands.SortStringsSpec | src/main.rs:1091 | sorting orders the strings and keeps each one as often as it occurs |
| CliCommands.Dedup | src/main.rs:1092 | never longer than its input |
| CliCommands.DedupMembers | src/main.rs:1092 | deduplicating keeps the same members and the same first element |
| CliCommands.StrLeDistinct | src/main.rs:1091-1092 | a non-strict step between different strings is a strict one |
| CliCommands.DedupStrict | src/main.rs:1091-1092 | deduplicating a sorted list leaves it strictly sorted |
| CliCommands.TagsSpec | src/main.rs:1071-1095 | at most five tags, strictly ascending, each a keyword in the lowered content, and exactly the first five such keywords in keyword order |
| CliCommands.ExtractTags | src/main.rs:1071-1095 | the result is the tags the specification above describes |
| CliCommands.ReplaceAbsent | src/main.rs:1105 | a line without the (non-empty) query is left as it is |
| CliCommands.ReplaceWhole | src/main.rs:1105 | a line that is the query is replaced whole |
| CliCommands.Highlighted | src/main.rs:1098-1115 | a non-empty list of lines gives text ending in a newline |
| CliCommands.HighlightMatches | src/main.rs:1098-1115 | the loop produces the highlighted lines of the content, one after another |
| CliCommands.HighlightWithoutHits | src/main.rs:1102-1111 | lines that do not match come back as written, each followed by a newline |
| CliCommands.NoHitsRoundTrip | src/main.rs:1098-1115 | a text of plain lines without hits comes back unchanged, plus a final newline |
| CliCommands.QueryLineWrapped | src/main.rs:1104-1106 | a line that is the query comes back wrapped in "**" |
| CliCommands.CaseOnlyHitNotWrapped | src/main.rs:1099-1106 | the match test ignores case but the replacement does not: "Rust" searched as "rust" is a hit yet nothing is wrapped |
| CliCommands.DetectProjectType | src/main.rs:1916-1931 | the type of the first recognised file; "Unknown" when no file is recognised |
| CliCommands.BuildCommands | src/main.rs:1934-1978 | Python gets an install and a Test command, installing the package itself iff pyproject.toml is present; Make, CMake and unknown projects get none |
| CliCommands.SetupPyThenPyproject | src/main.rs:1916-1978 | a project listing setup.py before pyproject.toml is Python and installs from pyproject |
| CliCommands.MakeProjectHasNoCommands | src/main.rs:1916-1978 | a project whose first file is a Makefile is a Make project and gets no build commands |
| CliCommands.Matched | src/main.rs:2342-2363 | never more than the number of patterns |
| CliCommands.MatchedBounds | src/main.rs:2342-2363 | zero iff no pattern occurs, all iff every one does |
| CliCommands.CountPatterns | src/main.rs:2355-2360 | the loop counts exactly the patterns that occur |
| CliCommands.CheckSecurityPatterns | src/main.rs:2342-2363 | the security patterns occurring in the lowered content, at most eight |
| CliCommands.CheckPerformancePatterns | src/main.rs:2398-2417 | the performance patterns occurring in the content as written, at most six |
| CliCommands.UpperCaseSecurityHit | src/main.rs:2342-2363 | upper case does not hide a security pattern |
| CliCommands.Without | src/main.rs:1175 | the tool is gone and every other entry stays as often as it was |
| CliCommands.RemoveTool | src/main.rs:1175 | the retain loop keeps exactly what Without keeps |
| CliCommands.Reset | src/main.rs:1218-1228 | both lists empty and no confirmation required |
| CliCommands.AllowSpec | src/main.rs:1168-1181 | after allow the tool is allowed, added only if missing, and not denied; every other tool keeps its entries and the confirmation flag is kept |
| CliCommands.DenySpec | src/main.rs:1192-1205 | after deny the tool is denied, added only if missing, and not allowed; every other tool keeps its entries |
| CliCommands.WithoutAbsent | src/main.rs:1175 | removing a tool that is not there changes nothing |
| CliCommands.AllowDenyIdempotent | src/main.rs:1168-1205 | allowing twice is allowing once, and so is denying |
| CliCommands.AllowTool | src/main.rs:1168-1190 | the permissions become the allowed ones, the change staying in memory whether or not the save succeeds; the report says which |
| CliCommands.DenyTool | src/main.rs:1192-1215 | the permissions become the denied ones; the report says whether the save succeeded |
| CliCommands.ResetPermissions | src/main.rs:1218-1240 | the permissions are reset; the report says whether the save succeeded |
| Security.CredentialOutcome | src/security/mod.rs:428-439 | the user id iff the password matches and the account is active; a wrong password is "Invalid credentials" whatever the account status |
| Security.VerifyTotp | src/security/mod.rs:585-593 | the stand-in accepts exactly the code "123456" and otherwise reports an invalid code |
| Security.NewSession | src/security/mod.rs:446-465 | the session belongs to the user, is created and last active now, expires an hour later, and carries no permissions |
| Security.AuthenticationManager.constructor | src/security/mod.rs:412-418 | no credentials and no sessions |
| Security.AuthenticationManager.VerifyCredentials | src/security/mod.rs:420-440 | with no user of that name the credentials are invalid; otherwise the outcome is that of some user with that name |
| Security.AuthenticationManager.CreateSession | src/security/mod.rs:446-465 | the new id is returned and the new session stored under it; nothing else changes |
| Security.AuthenticationManager.GetSession | src/security/mod.rs:467-472 | a stored session iff there is one under the id, otherwise "Session not found" |
| Security.AuthenticationManager.InvalidateSession | src/security/mod.rs:474-478 | the session is removed; an unknown id is not an error |
| Security.UniqueActiveUser | src/security/mod.rs:420-440 | an active user with a unique name logs in exactly with the demo password, and then gets their own id |
| Security.ExpiredSessionStillFound | src/security/mod.rs:467-472 | a session is still returned after its expiry time: nothing reads it |
| Security.PermissionString | src/security/mod.rs:505 | the resource, a colon and the action, in that order |
| Security.AuthorizationManager.constructor | src/security/mod.rs:488-494 | no roles and no assignments |
| Security.AuthorizationManager.CheckPermission | src/security/mod.rs:496-513 | always an answer, granted iff one of the user's roles lists the resource and action |
| Security.NoRolesNoPermission | src/security/mod.rs:496-513 | a user without roles is refused everything |
| Security.InRange | src/security/mod.rs:566-575 | never more entries than the log, all stamped within the inclusive range |
| Security.InRangeMembers | src/security/mod.rs:566-575 | every entry stamped within the range is kept, and only those |
| Security.ReversedRangeEmpty | src/security/mod.rs:566-575 | a range whose start is after its end holds nothing |
| Security.AuditLogger.constructor | src/security/mod.rs:547-552 | an empty log with the given switch |
| Security.AuditLogger.LogEvent | src/security/mod.rs:554-564 | the entry is appended when auditing is on and dropped when it is off; it never fails |
| Security.AuditLogger.GetLogs | src/security/mod.rs:566-575 | the entries stamped within the range, in log order |
| Security.Encrypt | src/security/mod.rs:533-537 | never fails and keeps the length |
| Security.Decrypt | src/security/mod.rs:539-543 | never fails and keeps the length |
| Security.EncryptRoundTrip | src/security/mod.rs:533-543 | decrypting what was encrypted gives the data back |
| Security.SecurityManager.constructor | src/security/mod.rs:298-311 | fresh managers with no credentials, no sessions and an empty audit log |
| Security.LoginOutcome | src/security/mod.rs:316-327 | a session id iff the user's credentials passed and, with two-factor on, a code was given and accepted; otherwise the credentials' error, "TOTP code required" without a code, or "Invalid TOTP code" |
| Security.SecurityManager.Login | src/security/mod.rs:314-346 | an unknown user is refused; for a known name the answer is LoginOutcome of some user of that name; so when every user of that name accepts the password and, with two-factor on, the code is valid, the session id is returned; a success stores a new session and audits it; a failure changes neither sessions nor audit log |
| Security.SecurityManager.Logout | src/security/mod.rs:349-369 | an unknown session is "Session not found" and changes nothing; a known one is removed and its logout audited |
| Security.SecurityManager.CheckPermission | src/security/mod.rs:372-393 | an unknown session is an error and audits nothing; otherwise the answer is whether the session's user holds the permission, audited as a success or a failure |
| Monitoring.AddChecked | src/monitoring/mod.rs:98 | with overflow checks the addition succeeds iff the sum fits 64 bits, and is then the sum |
| Monitoring.AddWrapping | src/monitoring/mod.rs:98 | without overflow checks the sum fits 64 bits: the plain sum when it fits, otherwise reduced by 2^64 |
| Monitoring.AddMaxDecrements | src/monitoring/mod.rs:313 | adding u64::MAX with wrap-around takes one from a positive counter and turns zero into u64::MAX |
| Monitoring.AddMaxPanicsWhenChecked | src/monitoring/mod.rs:313 | with overflow checks, adding u64::MAX to a positive counter overflows |
| Monitoring.Window | src/monitoring/mod.rs:106-110 | at most 1000 values: all of them when they fit, otherwise the last 1000 |
| Monitoring.WindowKeepsNewest | src/monitoring/mod.rs:102-111 | after recording, the new value is last and only the oldest values are dropped, so that at most 1000 remain |
| Monitoring.Cutoff | src/monitoring/mod.rs:132 | the saturating cut-off: 24 hours before now, never below zero |
| Monitoring.Since | src/monitoring/mod.rs:133 | no more points than given, all stamped at or after the cut-off |
| Monitoring.SinceMembers | src/monitoring/mod.rs:133 | a point is kept iff it was given and is recent enough |
| Monitoring.Retain | src/monitoring/mod.rs:133 | the retain loop keeps exactly the recent points, in order |
| Monitoring.NewestPointKept | src/monitoring/mod.rs:120-134 | the point just recorded is always kept, and last |
| Monitoring.InsertRealMultiset | src/monitoring/mod.rs:157-158 | inserting into the sorted values adds exactly the one value |
| Monitoring.InsertRealSorted | src/monitoring/mod.rs:157-158 | inserting keeps the values sorted |
| Monitoring.SortRealsSpec | src/monitoring/mod.rs:157-158 | sorting orders the values and keeps each one as often as it occurs |
| Monitoring.RoundToIndex | src/monitoring/mod.rs:160 | rounding half away from zero then casting: zero for a negative value, otherwise the nearest whole number |
| Monitoring.PercentileIndex | src/monitoring/mod.rs:160-161 | an index within the values, the first for a percentile at or below 0 and the last at or above 100 |
| Monitoring.Percentile | src/monitoring/mod.rs:149-164 | none iff there are no values; otherwise one of them, the least for a percentile at or below 0 and the greatest at or above 100 |
| Monitoring.Average | src/monitoring/mod.rs:167-178 | none iff there are no values |
| Monitoring.SumBounds | src/monitoring/mod.rs:174 | the sum of n values within bounds lies between n times each bound |
| Monitoring.AverageBounds | src/monitoring/mod.rs:167-178 | the average lies between any lower and upper bound of the values |
| Monitoring.FloatToU64 | src/monitoring/mod.rs:199-200 | the saturating cast: at most u64::MAX, zero for a value at or below zero |
| Monitoring.ErrorRate | src/monitoring/mod.rs:210-214 | zero when nothing was requested, otherwise a percentage between 0 and 100 while failures do not exceed requests |
| Monitoring.RequestRate | src/monitoring/mod.rs:204-208 | never negative, zero in the first second |
| Monitoring.PerformanceMonitor.constructor | src/monitoring/mod.rs:87-93 | no counters, histograms, gauges or series |
| Monitoring.PerformanceMonitor.GetCounter | src/monitoring/mod.rs:137-140 | the counter's value, zero for one never incremented |
| Monitoring.PerformanceMonitor.IncrementCounter | src/monitoring/mod.rs:96-99 | the counter, starting from zero, grows by the value with wrap-around at 2^64; nothing else changes |
| Monitoring.PerformanceMonitor.RecordHistogram | src/monitoring/mod.rs:102-111 | the value is appended and the histogram cut to its window; nothing else changes |
| Monitoring.PerformanceMonitor.SetGauge | src/monitoring/mod.rs:114-117 | the gauge holds the value; nothing else changes |
| Monitoring.PerformanceMonitor.GetGauge | src/monitoring/mod.rs:143-146 | the gauge's value iff it was set |
| Monitoring.PerformanceMonitor.RecordTimeSeries | src/monitoring/mod.rs:120-134 | a point stamped now is appended and the points older than 24 hours before it dropped; nothing else changes |
| Monitoring.PerformanceMonitor.GetTimeSeries | src/monitoring/mod.rs:181-184 | the series, empty for an unknown name |
| Monitoring.PerformanceMonitor.CalculatePercentile | src/monitoring/mod.rs:149-164 | none iff the histogram is unknown or empty; otherwise one of its values |
| Monitoring.PerformanceMonitor.CalculateAverage | src/monitoring/mod.rs:167-178 | none iff the histogram is unknown or empty |
| Monitoring.PerformanceMonitor.GetPerformanceMetrics | src/monitoring/mod.rs:187-228 | the request counts are the counters, the error rate is their ratio (zero with no requests), the rate is zero in the first second |
| Monitoring.PerformanceMonitor.UpdateSystemMetrics | src/monitoring/mod.rs:271-286 | the memory gauge reads 8 MiB and the CPU gauge 2.5; nothing else changes |
| Monitoring.PerformanceMonitor.RecordRequestStart | src/monitoring/mod.rs:303-306 | one more request in total and one more active, with wrap-around |
| Monitoring.PerformanceMonitor.RecordRequestEnd | src/monitoring/mod.rs:309-323 | the duration enters the response-time histogram and series, one active request is taken away by adding u64::MAX with wrap-around, and the success or failure is counted |
| Monitoring.IncrementAsWritten | src/monitoring/mod.rs:96-99 | with overflow checks, the increment succeeds iff the counter (zero when absent) plus the value fits 64 bits |
| Monitoring.RequestEndPanicsWhenChecked | src/monitoring/mod.rs:309-313 | with overflow checks, ending a request while one is active panics |
| Monitoring.StartEndRestoresActive | src/monitoring/mod.rs:303-313 | with wrap-around, starting and then ending a request leaves the active count where it was |
| Analytics.TypeName | src/analytics/mod.rs:776-787 | a non-empty name, starting with 'c' exactly for a custom type, whose name follows "custom_" |
| Analytics.TypeNameInjective | src/analytics/mod.rs:776-787 | different event types never share a name, so never share an index entry |
| Analytics.Positions | src/analytics/mod.rs:676-688 | positions in increasing order, each of an event whose type has that name |
| Analytics.PositionsComplete | src/analytics/mod.rs:676-688 | every event of the type is listed |
| Analytics.PositionsAppend | src/analytics/mod.rs:676-688 | appending an event extends only its own type's positions, by its index |
| Analytics.IndexAppend | src/analytics/mod.rs:676-688 | appending an event and its position under its type name keeps the index exact for every name |
| Analytics.DataCollector.constructor | src/analytics/mod.rs:668-674 | no events, an empty index, no series |
| Analytics.DataCollector.Lookup | src/analytics/mod.rs:680-683 | the positions recorded under a name are exactly those of the events of that type |
| Analytics.DataCollector.CollectEvent | src/analytics/mod.rs:676-688 | the event goes last and its position is added under its type name, keeping the index exact; the series are untouched |
| Analytics.DataCollector.CollectMetric | src/analytics/mod.rs:690-704 | the point goes last in the named series, which is created empty with average aggregation when absent; the events are untouched |
| Analytics.EventFoundUnderItsType | src/analytics/mod.rs:676-688 | a recorded event's position is found under its own type name and under no other type's |
| Analytics.RealtimeMetrics | src/analytics/mod.rs:644-651 | readings for exactly the active users, the request rate and the error rate |
| Analytics.AnalyticsEngine.constructor | src/analytics/mod.rs:593-606 | a fresh, empty collector with the given configuration |
| Analytics.AnalyticsEngine.TrackEvent | src/analytics/mod.rs:609-617 | the event is collected last and the series are untouched; the real-time stages report success |
| Analytics.AnalyticsEngine.TrackMetric | src/analytics/mod.rs:620-629 | a point stamped now goes last in the named series (created when absent), an existing series keeps its earlier points and aggregation, every other series is unchanged; the events are untouched |

## Left out

- Streaming: the claim that the split of a stream into chunks does not change the events produced is not proved; each chunk's effect is stated on its own.
- Agent.AgentLoop.Run: the loop is bounded by a `maxCycles` argument, since the source loops until the receiver closes; the 100 ms waits are not modelled.
- Agent: the agent context's `config` field is left out, because no modelled operation reads it.
- Config: reading and writing JSON, YAML and TOML is done by libraries and is not modelled; `f32` text is a `FloatFormat` parameter.
- Git.GetBranches: requires that no trimmed line of the output is a bare `*`, since the source panics on one.
- Git.CommitRoundTrip: requires fields free of vertical bars, since a bar inside a field is read back as a separator.
- Git: the git subprocesses are not run; their output is an `Option<string>` parameter, so a process that cannot be started and one that exits with a failure are both `None`, and the spawn error's own text (`Failed to get file status: <io error>` and the like) is not modelled.
- Raft: every non-empty append truncates the log to `prev_log_index` before appending, as the code does; the paper's rule of keeping matching entries is not modelled (`Raft.StaleAppendShortens` shows the difference).
- Gateway: the rate limiter always allows and the middleware chain does nothing, as in the source; forwarded responses are parameters; the breaker's half-open state is never entered by the code's own transitions.
- Cache: the average access time is a float that is not modelled; values are bytes already serialised, so serialisation and deserialisation errors and the errors a cache layer returns are not modelled.
- Conversations: the estimated cost is a float that is not modelled; the `u32` token counters are unbounded here, so their overflow is not modelled; file reads and writes and the directory listing are parameters.
- Distributed: node load scores are `f32` in the source and integers here; only their order is used.
- Gateway: the average response time (`f64`) is not modelled.
- Tools: the average execution time (`f64`) of the usage statistics is not modelled; a tool's own `execute` is an outcome parameter.
- BuiltinTools: the file system and the shell are not modelled; each tool's check says whether and how a call is refused, not what a permitted call reads, writes or runs.
- TerminalApplication: `to_lowercase` is ASCII lower-casing; the command list "/help" shows is a parameter; drawing, the event loop and the loading animation are left out; the input box edits at its end.
- Ui: drawing and the terminal are not modelled; a terminal call that can fail is a parameter giving its error text.
- Database: connection pools, migrations and transactions are not modelled; only the SQL text builders are.
- Refactor: the regular-expression engine is a matcher parameter; replacements are proved for single-digit placeholders and captures without `$`, because `$10` is ambiguous in the source's replacement syntax.
- Inference: the grouping path of `batch_infer` (a `HashMap` of batches) is left out; the sequential path is modelled.
- Watcher: the `notify` thread and channel are not modelled; the directory walk is a parameter giving the paths found, so a failing walk (`Walk error: ...`) is not modelled; the `Renamed` event is never produced by the code; the configuration used for an event is that of some watched path.
- Workflow: executing a task graph is reduced to its outcome; the scheduler is not linked to the engine, as in the source; times are integers; `max_queue_size` is not enforced, as in the source.
- CliCommands: printing and emoji decoration are not modelled; lower-casing is ASCII only; the file walk of the review commands and `generate_claude_md` are left out; saving is an outcome parameter.
- Security: password hashing, TOTP and encryption are modelled as the fixed stand-ins the source itself uses (the password "demo_password", the code "123456", and the identity for encryption and decryption), not as real cryptography; rate limiting, the password policy and key rotation are not modelled.
- Monitoring: floats are reals; `export_prometheus_metrics`, `get_system_info` and the background task intervals are not modelled.
- Monitoring.PerformanceMonitor.CalculateAverage: states only that the result is none exactly when nothing was recorded; the bounds of the average are stated by `Monitoring.AverageBounds`.
- Monitoring.Average: states only that the result is none exactly for an empty list; the bounds are in `Monitoring.AverageBounds`.
- Analytics: the analyzers, insight generators and report builders are stubs in the source and are left out; so are the behaviour store and the geolocation and device details.
- Plugins: plugin hooks are outcome parameters; loading plugins from files is not modelled.

## Findings

| source | as written | input that shows it | evidently intended | confidence | as-written member | corrected member |
|---|---|---|---|---|---|---|
| src/streaming/mod.rs:527-540 | the output task subscribes to the broadcast after the chunk has been processed and its events sent | any chunk holding a text delta | the output sees the chunk's events | not executed | Streaming.StreamingClient.ReceiveChunkAsWritten, shown by Streaming.DeltaEventWritesText | Streaming.StreamingClient.ReceiveChunk |
| src/git/mod.rs:238-240 | the tracking part is sliced from the first `[` to the first `]`, which panics when a `]` comes first | `## a]b...origin/a]b [ahead 1]` | the slice ends at the first `]` after the `[` | not executed | Git.BracketPartAsWritten, shown by Git.BracketPanicExample | Git.BracketPart, proved by Git.BracketAgreesWhenOrdered |
| src/distributed/mod.rs:1570-1578 | the count of nodes is checked after a node is pushed | `get_nodes` with count 0 returns one node | at most `count` nodes are returned | not executed | HashRing.CollectAsWritten, shown by HashRing.ZeroCountAsWritten | HashRing.Collect, proved by HashRing.CollectSpec |
| src/cache/advanced.rs:369-375 | an expired entry is removed from the map but stays in the usage order and size | `get` of an expired key | the entry is dropped everywhere | not executed | Cache.ExpiredGetAsWritten, shown by Cache.ExpiredGetLeaksUsage | Cache.MemoryCache.Get, proved by Cache.DropEntryConsistent |
| src/tools/builtin.rs:62-66 | the path guard checks that the joined path starts with the working directory without resolving `..` | `../../etc/passwd` from `/home/user` | paths leaving the working directory are refused | not executed | BuiltinTools.PathInsideAsWritten, shown by BuiltinTools.TraversalPassesAsWritten | BuiltinTools.PathInside, proved by BuiltinTools.InsideAgreesWithoutParent |
| src/refactor/mod.rs:285-293 | a move checks the target index against the length before the removal | moving line 0 of a two-line file to index 2 | the target must be a valid index after the removal | not executed | Refactor.MoveAsWritten, shown by Refactor.MovePastEndPanics | Refactor.EditLines |
| src/refactor/mod.rs:207-230 | only the end of the suggested range is checked against the file | range (3, 1) on a one-line file | a range starting past the file is refused | not executed | Refactor.SuggestionResultAsWritten, shown by Refactor.ReversedRangePanics | Refactor.SuggestionResult |
| src/ui/terminal_app.rs:223-237 | Up moves through history only while the input is empty, and the input holds the recalled entry after the first Up | two Up presses with two history entries | each Up steps one entry further back | not executed | TerminalApplication.UpAsWritten, shown by TerminalApplication.SecondUpAsWritten | TerminalApplication.UpStep, proved by TerminalApplication.UpsWalkBack |
| src/ui/mod.rs:722-751 | the cursor is used as a byte index but advances by one per character | typing `é` then `a` | the cursor counts characters | not executed | Ui.TypeAsWritten, shown by Ui.TypeAfterWideCharPanics | Ui.TerminalUi.HandleKeyEvent, proved by Ui.TypeAgreesOnAscii |
| src/inference/mod.rs:391-402 | the cache-hit path returns before `active_inferences` is decremented | any repeated request | a finished request is no longer active | not executed | Inference.InferMetricsAsWritten, shown by Inference.CacheHitLeavesActiveAsWritten | Inference.InferMetrics, proved by Inference.MetricsAgreeOnMiss |
| src/monitoring/mod.rs:309-313 | ending a request adds `u64::MAX` to `active_requests`, which overflows whenever a request is active | ending a request with one active, in a build with overflow checks | the active count goes down by one | not executed | Monitoring.IncrementAsWritten, shown by Monitoring.RequestEndPanicsWhenChecked | Monitoring.PerformanceMonitor.RecordRequestEnd, proved by Monitoring.StartEndRestoresActive |
