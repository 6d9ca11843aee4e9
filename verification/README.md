# Verified model of the agent gateway

This project models the parts of the A2A gateway that hold real algorithms and proves what they are for. The
modules follow the program:

- **The tool loop** (`ToolLoop`, with `Transcript`, `LoopTranscripts`, `LoopReload`, `LoopEvents`,
  `LoopParallel`, `LoopAnswers`, and `Subagents` for the subagent loop). LLM turns alternate with batches of
  tool calls; read-only calls run in goroutines, the rest one after another; messages, stored rows and events
  grow together. The LLM, the tools, the subagents and the goroutine schedule are oracles.
- **Streams** (`Framing`, `Printer`, `Relay`, `RelayOutcomes`, `Extractors`, `WireEvents`, `BodyReaders`,
  `Readers`, `Reassembly`, `ReaderLaws`, `ReaderEnds`, `Channel`). The server-sent-event parsers and their
  printer, the readers of whole reply bodies, the two LLM stream readers with the reassembly of tool calls
  from fragments, and the bounded channel between reader and consumer. The format is the LF-only subset of
  section 9.2 of the WHATWG HTML Living Standard.
- **The task system** (`TaskItems`, `TaskInterleaving`, `TaskProgress`, `TaskOutcomes`). The store and tools
  as a class, the same tools as interleaved atomic statements of many clients, and when all tasks can be
  finished.
- **Invites and group turns** (`Invites`, `LockedTables`, `InviteTransactions`, `InviteGrants`, `GroupTurns`,
  `GroupTurnLaws`, `GroupOutcomes`). Joins as transactions with row locks, undo and commit, and the two
  versions of a turn.
- **Call trees** (`CallTree`, `CallTreeRuns`, `HopOutcomes`). Root context, parent task and group through
  hidden tool arguments, headers and authentication, for one hop and for trees of any depth.
- **Registry and redaction** (`Registry`, `RegistryLaws`, `RegistryAgents`, `SensitiveKeys`, `Redaction`).

`GoStrings` and `Json` hold the string functions and the JSON values that the rest uses.

Code that updates objects or variables step by step is a class or a method with loops, proved against a
specification function; the laws are lemmas about those functions, and lemmas named `...Says` tell what an
operation leaves behind without its steps. Interleavings are state machines: a run is any sequence of steps,
and a step that cannot happen changes nothing.

## What the proofs found

- A run that ends at an unknown tool saves a block of calls without all its answers. The next request on the
  same context then carries an unclosed transcript, and this is the only exit with that effect
  (`LoopReload.NextRequestClosed`; an LLM that calls a tool which does not exist is enough,
  `LoopReload.UnknownToolBreaksTheNextRequest`). A tool call without an id has the same effect, because the
  reload drops its answer.
- Results of parallel calls are kept under the call id. Calls are answered with their own results exactly when
  no id clashes with one of a read-only call (`LoopAnswers.OwnAnswerIffNoClash`, with a clash in
  `LoopAnswers.TwinsShareOneAnswer`).
- The OpenAI reader sends the calls of the segments that a `tool_calls` finish closes, and loses the others:
  everything is sent exactly when no fragment stands behind the last finish (`Reassembly.AllSentIffFinished`,
  with a losing response in `Reassembly.LaterCallIsLost`).
- A root context or group id with spaces at its ends, or a blank one, does not survive a hop, because the
  arguments are trimmed; a turn without a root lets the model supply one (`CallTree.RootKeptIffCarried`,
  `CallTree.GroupKeptIffCarried`).
- Registering does not clear the failure counter, so an agent that failed twice before it registered again is
  removed by its next failed check (`RegistryLaws.RegistrationKeepsStreak`, and a whole run in
  `RegistryLaws.RegisteredAgentIsRemoved`).
- Two clients can both complete the same task; the later result wins (`TaskInterleaving.LaterCompletionWins`).
  A result is final exactly when every client past the status check brings the same one
  (`TaskInterleaving.ResultIsFinalIff`).
- The two versions of a group turn read an answer frame by frame and line by line. They stay in step exactly
  when each closed frame gives the same delta both ways and the unclosed rest gives none
  (`BodyReaders.InStepIffSameDeltas`). An unclosed last frame (`BodyReaders.UnclosedFrameParts`) and a payload
  on two data lines (`BodyReaders.TwoLineFrameParts`) break that, and then the two versions of a turn record
  different events (`GroupTurnLaws.BrokenOffTurnsPart`).
- Redacting twice is not redacting once: the plain text `"token=a"b &"` is rewritten to a JSON string, which a
  second pass encodes anew (`Redaction.QuotedSecretChangesAgain`). It is exactly when every plain text that
  the redaction reaches is rewritten to one that stays as it is (`Redaction.RedactionIsIdempotentIff`).

## What is assumed

- Strings are sequences of bytes, except in `SensitiveKeys` and `Redaction`, where they are sequences of code
  points. `TrimSpace` knows the UTF-8 encodings of all Unicode spaces. The Unicode tables that `SensitiveKeys`
  trims and lower-cases with are a parameter.
- The JSON codec is a parameter. Of an event payload it is assumed that its text is not empty, is on one line
  and has no space at its ends. What is read back of it may differ from it, as it does when a tool result was
  cut inside a character; where the texts of a stream are compared, only the text entries must come back. Text
  that opens like a frame is not JSON. In `Redaction`, strings decoded out of a text are shorter than the
  text, and decoding inverts encoding on values with well-formed numerals that are not nested too deep.
- Stored messages and the tasks of a context come back in the order in which they were saved, and saves
  succeed. The callbacks that save messages and record traces are always given. A negative `maxToolResultSize`
  is not modelled.
- The user message is saved by the proxy before the engine reloads the history and appends it again. The model
  does the same, so it is in the request twice.
- `result` and `error` of a new task are NULL in the table; they are read as "".
- Store writes of the registry succeed, and registry operations do not overlap. A health pass may be cancelled
  at any of its checks.
- Generated ids are new, not empty and without spaces. Agent names are the path segments that are called.
- Clock readings are parameters, and no order is assumed between them.

## Model

| member | source | states |
|---|---|---|
| `Transcript.BuildChatHistory` | internal/engine/engine.go:205-235 | The loop over stored rows returns exactly the rows read as messages, `agent` as `assistant`, without the tool rows that have no call id |
| `Transcript.HistoryOwes` | internal/engine/engine.go:205-235 | Every row that the reload drops is one answer missing: calls asked for minus answers given grows by the number of dropped rows |
| `Transcript.HistoryKeeps` | internal/engine/engine.go:205-235 | The reload shortens the transcript by the dropped rows and changes nothing when it drops none |
| `Transcript.HistorySays` | internal/engine/engine.go:205-235 | The reload tells exactly the rows that are no tool rows without an id, one message each in their order, with role, text, reasoning, calls and call id of the row |
| `Transcript.ClosedAppend` | internal/engine/engine.go:328-358 | Behind a closed transcript, a suffix keeps it closed exactly when the suffix is closed itself |
| `ToolLoop.Session.ReadTurn` | internal/engine/engine.go:281-302 | Reading a stream forwards each delta as it comes, collects text, reasoning and calls, and stops at the first error |
| `ToolLoop.Session.RunPool` | internal/engine/engine.go:360-401 | The parallel phase leaves what the given schedule of starts and guarded stores produces |
| `ToolLoop.Session.Execute` | internal/engine/engine.go:588-630 | One execution emits its progress ticks and yields its result, its error text, or the error that ends the run |
| `ToolLoop.Session.Resolve` | internal/engine/engine.go:420-520 | A call is answered by a subagent, by the shared result map under its id, or by executing it now, in that order |
| `ToolLoop.Session.ServeCall` | internal/engine/engine.go:405-551 | Serving one call appends start, middle, end and result events, one tool message and one row; an unknown tool stops after the start |
| `ToolLoop.Session.ServeCalls` | internal/engine/engine.go:405-569 | The serial phase serves the calls in order up to an unknown tool |
| `ToolLoop.Session.RunLoop` | internal/engine/engine.go:237-573 | The nested loop with both limits and all exits leaves messages, rows, events, requests and executions as the recursive specification says |
| `ToolLoop.Session.HandleRequest` | internal/engine/engine.go:133-203 | A request loads history, appends the user message, runs the loop between the working status and one completed or failed status |
| `LoopAnswers.TurnSays` | internal/engine/engine.go:281-302 | Of a stream, up to its first error or its end, the loop hears the text, the reasoning and the calls in their order, forwards each delta as an event of its kind, and takes that error |
| `LoopAnswers.RoundSays` | internal/engine/engine.go:304-569 | In a round without a clash, under every schedule, behind the block of calls stands, call by call up to the first unknown tool, the result of that call, its error as a text, cut at the limit with a note; row and result event carry the redaction of that text, and the events of a call are its start, those of its subagent or its progress, its end and its result |
| `LoopAnswers.RequestUnrolls` | internal/engine/engine.go:133-573 | A request is the history and the user message, then rounds within both limits that each send the messages so far and answer all their calls, then one round that ends it by a limit, a refusal, a broken stream, an answer or an unknown tool, and the status with the text or the error of that end |
| `LoopTranscripts.RoundsAdd` | internal/engine/engine.go:257-572 | Whatever the rounds do, messages grow by whole answered blocks, rows by the rows of exactly those messages plus at most the closing text, and only an unknown tool leaves calls unanswered |
| `LoopTranscripts.RequestsAreClosed` | internal/engine/engine.go:257-281 | Every request sent to the LLM carries a closed transcript when the history it starts from is closed |
| `LoopTranscripts.StoredTranscriptClosed` | internal/engine/engine.go:304-572 | After a run the stored transcript is closed if and only if the run did not end at an unknown tool |
| `LoopReload.ReloadRoundTrip` | internal/engine/engine.go:205-235 | After a request its context reads back as the history before it, the messages of the run, redacted, and the closing text, if and only if every tool message of the run has a call id; redaction leaves every call and answer in its place |
| `LoopReload.NextHistoryClosed` | internal/engine/engine.go:205-235 | The history that the next request loads is closed if and only if this run met no unknown tool and saved no answer without an id |
| `LoopReload.VisitKeepsClosed` | internal/engine/engine.go:150-203 | One visit to a context, with the user row that the proxy saved first, keeps its history closed exactly when the visit is sound |
| `LoopReload.ConversationClosed` | internal/engine/engine.go:133-203 | After any number of visits to a context that starts closed: the first request of the next visit, and with it every one, is closed if and only if every earlier visit was sound |
| `LoopReload.NextRequestClosed` | internal/engine/engine.go:304-352 | The first request after a visit is closed if and only if that visit was sound |
| `LoopReload.UnknownToolBreaksTheNextRequest` | internal/engine/engine.go:495-520 | An LLM that calls a tool which does not exist leaves a new context on which every next request starts with an unclosed transcript |
| `LoopReload.RequestsGrow` | internal/engine/engine.go:257-281 | Requests are only appended, and one run sends no more of them than the round limit and the turn limit allow |
| `LoopEvents.AcceptedStream` | internal/engine/engine.go:172-202 | An accepted event stream starts with its only working status and ends with its only terminal status |
| `LoopEvents.CallsDoNotInterleave` | internal/engine/engine.go:405-551 | Between the start of a call and its result, only events of that call occur; without a result the stream fails at once |
| `LoopEvents.StreamIsGrammatical` | internal/engine/engine.go:133-573 | Every run produces an accepted stream; it ends inside a call exactly when it ends at an unknown tool |
| `LoopEvents.CompletedTextWasStreamed` | internal/engine/engine.go:196-202 | The text of the completed status is a suffix of the concatenated text deltas |
| `LoopAnswers.OwnAnswerIffNoClash` | internal/engine/engine.go:360-555 | When the answers of the calls differ, under every complete schedule: every tool message of the round carries the answer of its own call if and only if no call that looks into the shared map has the id of a different read-only call |
| `LoopAnswers.SharedAnswerSays` | internal/engine/engine.go:360-480 | In every round, clash or not, a call that looks into the shared map is answered with the result of the read-only call of its id whose goroutine finished last |
| `LoopAnswers.TwinsShareOneAnswer` | internal/engine/engine.go:386-401 | Two read-only calls with one id and the results A and B: both tool messages carry the same text |
| `LoopParallel.ScheduleDoesNotShow` | internal/engine/engine.go:360-569 | A round without such a clash leaves the same messages, rows and events under every schedule of the goroutines |
| `LoopParallel.RunsAgree` | internal/engine/engine.go:237-573 | Two runs that differ in their schedules only, and whose rounds that are reached have no clash, have the same logs and the same exit |
| `LoopParallel.EveryCallRunsOnce` | internal/engine/engine.go:360-551 | Every call of such a round is executed exactly once, all read-only calls before any other, the others in call order |
| `Subagents.SubagentEngine.RunLLMLoop` | internal/tools/subagent.go:169-243 | The subagent loop of at most ten rounds leaves messages, requests and executions as specified |
| `Subagents.SubagentEngine.RunExisting` | internal/tools/subagent.go:74-149 | A session over the limit fails without a request; a completed one stores only its first two messages, redacted; the counter is restored |
| `Subagents.SubagentRequestsAreClosed` | internal/tools/subagent.go:174-240 | Every request of the subagent loop carries a closed transcript, and there are at most as many as rounds are left |
| `Subagents.SessionRequestsAreClosed` | internal/tools/subagent.go:169-243 | A whole subagent session sends at most ten requests, and each carries a closed transcript |
| `Subagents.AtMostThreeInside` | internal/tools/subagent.go:81-97 | In every order of arrivals and departures the counter is the number of sessions inside, and at most three |
| `Subagents.NewcomerSays` | internal/tools/subagent.go:81-97 | A newcomer gets in exactly when fewer than three sessions are inside, and is turned away otherwise |
| `Subagents.SessionUnrolls` | internal/tools/subagent.go:169-243 | A session is at most ten rounds that each send the messages so far and answer every call by its result or its error, in call order, and it ends with an answer, the error of the LLM or its stream, or the round limit |
| `Framing.FramesSplit` | internal/handler/group.go:123-139 | Cutting a stream in two and carrying the remainder over loses and adds no frame |
| `Framing.GroupStreamWriter.HandleFrame` | internal/handler/group.go:141-170 | One frame adds its text and thinking delta and reports its decoded object, or changes nothing |
| `Framing.GroupStreamWriter.Write` | internal/handler/group.go:123-139 | One write consumes exactly the frames that the new bytes close and keeps the rest |
| `Framing.ChunkingInvisible` | internal/handler/group.go:123-170 | Any sequence of writes leaves the writer, its text, its callbacks and its remainder as one write of all the bytes does |
| `Printer.PrintedEventsComeBack` | internal/engine/engine.go:702-722 | Under every split into writes, parsing printed events returns in order exactly what the codec reads back of their payloads, with exactly those deltas, and keeps nothing back; payloads that read back unchanged come back themselves |
| `Relay.Drain` | internal/handler/handler.go:648-697 | The relay takes every closed frame off its buffer, records it and keeps the remainder |
| `Relay.RelayLoop` | internal/handler/handler.go:641-748 | The outcome of the relay loop depends on the relayed bytes and on whether a read failed, not on where the reads cut the bytes |
| `Relay.RelayAgreesWithWriter` | internal/handler/handler.go:648-697 | The relay loop and the group stream writer collect the same text from the same frames |
| `RelayOutcomes.RelaySays` | internal/handler/handler.go:641-748 | After a relayed response every payload of a closed frame is recorded in order; the saved message is the text of the deltas, else the last wrapped text, else none; the states are RESPONDED when there is a text or reading ended well, then ERROR when it failed |
| `RelayOutcomes.RelaySaysOnEngineStreams` | internal/handler/handler.go:648-731 | Of an engine stream the relay records the payloads one by one and saves the concatenation of the text deltas |
| `RelayOutcomes.WrappedSays` | internal/handler/handler.go:1141-1260 | The text of an event is that of the message at the first of four places that there is, one line for each part with a text; an event without such a message has none |
| `Extractors.ExtractGroupAgentResponseText` | internal/handler/group.go:1359-1390 | The line-wise loop returns streamed deltas, else the last wrapped text, else the JSON response text or the body |
| `RelayOutcomes.ResponseSays` | internal/handler/group.go:1359-1390 | The text of a whole response is that of the message or else of the artifact in its result, and otherwise the body itself |
| `WireEvents.EventsComeBack` | internal/engine/engine.go:133-722 | Every event of the engine is read back from its payload, with its task: nothing that an event says is lost on the wire |
| `WireEvents.DeltaIff` | internal/handler/group.go:150-170 | A delta counts exactly when the object is of its type and has a text in its field |
| `Extractors.InvokeStreaming` | internal/handler/group.go:1175-1211 | Writing a body in any chunks and reading the reply gives the frame-wise text of the whole body |
| `Extractors.SendToAgentText` | internal/tools/a2a.go:312-358 | The loop of `send_to_agent` over the response lines returns the specified text |
| `Extractors.FrameAndLineAgree` | internal/handler/group.go:1359-1390 | On every engine stream whose text entries are read back, the frame-wise and the line-wise extractor return the trimmed concatenation of the deltas, or the body when that is blank |
| `Extractors.SendAgreesOnRuns` | internal/tools/a2a.go:316-352 | On the stream of every run whose text entries are read back, `send_to_agent` returns the concatenated deltas, and all three extractors agree up to trimming when they are not blank |
| `Extractors.CutResultIsReadable` | internal/engine/engine.go:523-551 | The event of a tool result that was cut inside a character, and is read back with other bytes, is such an event |
| `BodyReaders.InStepIffSameDeltas` | internal/handler/group.go:1199-1211 | On any body, the frame-wise and the line-wise reader have collected the same after every closed frame and at the end if and only if each closed frame, joined into one payload or read line by line, gives the same delta, and the unclosed rest gives none |
| `BodyReaders.SameDeltasSameText` | internal/handler/group.go:1359-1390 | On such a body both versions of the reader return the same reply text |
| `BodyReaders.SameTextIff` | internal/handler/group.go:1199-1211 | On any body the two reply texts are equal if and only if the deltas of the closed frames are blank, or equal the deltas of the lines, or, when the lines carry none, the last wrapped text or the response text |
| `BodyReaders.EqualByFallback` | internal/handler/group.go:1199-1211 | A body that is one unclosed frame reads the same although the readers are not in step, because the frame-wise one falls back |
| `BodyReaders.UnclosedFrameParts` | internal/handler/group.go:1359-1390 | Behind a closed event, the line-wise reader counts the delta of an unclosed one and the frame-wise reader does not |
| `BodyReaders.TwoLineFrameParts` | internal/handler/group.go:141-170 | A payload on two data lines of one closed frame is a delta for the frame-wise reader and nothing for the line-wise one, which returns the response text of the body |
| `BodyReaders.EngineStreamsReadTheSame` | internal/handler/group.go:1175-1211 | Every stream of engine events, also one whose texts are not read back, meets the condition |
| `Readers.OpenReadStream` | internal/llm/openai.go:129-231 | The scanning loop sends exactly the specified events for any lines and any map order |
| `Readers.AnthReadStream` | internal/llm/anthropic.go:121-199 | The block loop sends exactly the specified events for any lines |
| `ReaderEnds.OpenEndsDoneIff` | internal/llm/openai.go:129-242 | For every response the OpenAI reader ends with the done event if and only if a `[DONE]` line comes before any malformed payload and the scanner holds no error; otherwise with an error that names the cause |
| `ReaderEnds.OpenSays` | internal/llm/openai.go:138-218 | Up to the line at which it stops, the OpenAI reader sends the reasoning and the text of the chunks in their order, and exactly the calls of the segments that a finish closes |
| `ReaderEnds.AnthEndsDoneIff` | internal/llm/anthropic.go:121-199 | For every response the Anthropic reader ends with the done event if and only if a `message_stop` comes before any malformed payload; otherwise with an error that names the cause |
| `ReaderEnds.AnthReads` | internal/llm/anthropic.go:121-185 | Up to the line at which it stops, the Anthropic reader sends what its blocks give, and then that one event |
| `Reassembly.MergedIsConcatenation` | internal/llm/openai.go:138-203 | Under any interleaving of deltas, the entry of an index holds the in-order concatenation of its argument fragments and its last non-empty id and name |
| `Reassembly.OrderDoesNotShow` | internal/llm/openai.go:205-218 | In any two orders of visiting the map, the same calls come out |
| `Reassembly.OpenDecodes` | internal/llm/openai.go:129-218 | For any chunks, with any number of finishes anywhere, the reader sends the text in order and exactly the calls spelled between finishes, then one terminal event |
| `Reassembly.AllSentIffFinished` | internal/llm/openai.go:205-231 | Every call that the chunks spell is sent if and only if no fragment stands behind the last finish, that is, if and only if the map of collected calls is empty at the end |
| `Reassembly.LaterCallIsLost` | internal/llm/openai.go:205-231 | A response whose second call comes after its only finish: both are spelled and one is sent |
| `ReaderLaws.OpenTerminates` | internal/llm/openai.go:129-231 | Every run of the OpenAI reader ends in exactly one done or error event |
| `ReaderLaws.AnthTerminates` | internal/llm/anthropic.go:121-199 | Every run of the Anthropic reader ends in exactly one done or error event |
| `ReaderLaws.AnthDecodes` | internal/llm/anthropic.go:133-185 | Blocks that carry a reply are decoded to its text and exactly its calls |
| `ReaderLaws.ReadersAgree` | internal/llm/openai.go:138-218 | For any chunks and blocks that spell one reply, the tool loop hears the same text from both readers, and the same multiset of calls if and only if no OpenAI fragment stands behind the last finish |
| `ReaderLaws.ReadersAgreeOnLines` | internal/llm/openai.go:233-242 | The same holds of response lines, with any lines between that both readers skip |
| `Channel.RunsTerminate` | internal/llm/openai.go:55-57 | Every joint run of reader, 32-slot channel and consumer is finite |
| `Channel.WhoIsLeft` | internal/engine/engine.go:281-302 | A joint run that cannot go on has a returned consumer, and the reader has left if and only if what follows the first error fits into the channel |
| `ReaderLaws.ReadersAlwaysLeave` | internal/llm/anthropic.go:121-199 | For both readers, every joint run that cannot go on has delivered everything and left no goroutine behind |
| `TaskItems.TaskItemStore.Create` | internal/svc/task_item_store.go:22-30 | A new id is stored and listed last; an existing one changes nothing |
| `TaskItems.TaskItemStore.Claim` | internal/svc/task_item_store.go:103-119 | A claim succeeds exactly on a pending task, and sets its owner and status only then |
| `TaskItems.TaskItemStore.UpdateStatus` | internal/svc/task_item_store.go:88-100 | Status, result and error of an existing task change, without a condition on its status |
| `TaskItems.TaskItemStore.CanStart` | internal/svc/task_item_store.go:122-144 | The loop answers whether all dependencies exist and are completed, and reports a malformed list |
| `TaskItems.TaskItemStore.ListUnblocked` | internal/svc/task_item_store.go:147-163 | The loop lists the pending tasks of the context that can start, in creation order |
| `TaskItems.TaskItemStore.ExecuteCreateTask` | internal/tools/task_tools.go:80-121 | The tool creates a pending task with the trimmed dependency list, or reports what is missing |
| `TaskItems.TaskItemStore.ExecuteClaimTask` | internal/tools/task_tools.go:180-205 | The tool claims only a startable pending task; it reports a task as blocked exactly when a dependency is open or the task is unknown |
| `TaskItems.TaskItemStore.ExecuteCompleteTask` | internal/tools/task_tools.go:207-246 | The tool completes only a task in progress and reports what can start afterwards |
| `TaskItems.CompletionReports` | internal/tools/task_tools.go:226-244 | A task that a completion makes startable is in the reported list if and only if it belongs to the context of the completed task |
| `TaskOutcomes.CommaListSays` | internal/tools/task_tools.go:92-99 | A comma list names exactly the texts between its commas, trimmed, in their order |
| `TaskOutcomes.StartableIff` | internal/svc/task_item_store.go:122-144 | A task may start exactly when it exists, its list can be read and every dependency exists and is completed; only an unreadable list is an error |
| `TaskOutcomes.ListedAreReady` | internal/svc/task_item_store.go:147-163 | The listing gives the rows of exactly the pending startable tasks of the context, in creation order |
| `TaskInterleaving.EveryRunIsSafe` | internal/tools/task_tools.go:180-245 | In every interleaving of create, check, claim and complete, every task in progress or completed has all its dependencies completed |
| `TaskInterleaving.AtMostOneClaim` | internal/svc/task_item_store.go:103-119 | In every interleaving at most one claim per task succeeds |
| `TaskInterleaving.ClaimsFollowDependencies` | internal/tools/task_tools.go:180-245 | A claim comes after the completion of every dependency, which comes after that dependency's own claim |
| `TaskInterleaving.CompletionsFollowDependencies` | internal/tools/task_tools.go:180-245 | Completions follow a topological order: every completion of a task comes after a completion of each of its dependencies |
| `TaskInterleaving.CyclesStayPending` | internal/svc/task_item_store.go:122-144 | No task on a dependency cycle is ever claimed in any interleaving |
| `TaskInterleaving.OwnerIsKept` | internal/svc/task_item_store.go:88-119 | From any reachable state on, statuses only advance and the owner of a claimed task never changes |
| `TaskOutcomes.RowsAreExplained` | internal/tools/task_tools.go:80-246 | In every interleaving each row is as it was created, a started task is owned by somebody who asked to claim it, and a completed one has a result that was reported for it and no error |
| `TaskInterleaving.UninterruptedIsSequential` | internal/tools/task_tools.go:180-205 | Run without interruption, the steps of a claim leave the rows that the sequential tool leaves |
| `TaskInterleaving.LaterCompletionWins` | internal/tools/task_tools.go:214-231 | Two clients that both saw a task in progress both complete it, and the later result replaces the earlier one |
| `TaskInterleaving.ResultIsFinalIff` | internal/tools/task_tools.go:214-231 | A completed task keeps its result in every continuation if and only if every client that has passed the status check for it brings that result |
| `TaskInterleaving.CompletionsAreBounded` | internal/tools/task_tools.go:214-231 | Once completed, a task is completed again at most once per client that had already passed the status check |
| `TaskProgress.SomeTaskIsReady` | internal/svc/task_item_store.go:122-144 | In a closed, acyclic table with open tasks and none failed or in progress, some open task passes `CanStart` |
| `TaskProgress.SchedulesProgress` | internal/svc/task_item_store.go:122-163 | Every schedule finishes one open task per entry, and in an acyclic table it can be continued as long as a task is open |
| `TaskProgress.FinishableIffAcyclic` | internal/svc/task_item_store.go:122-144 | Claim and complete can finish all tasks if and only if no open tasks wait for each other in a circle |
| `Invites.NormalizeIsStable` | internal/svc/group_store.go:488-503 | A normalised invite always has a limit, and normalising again changes nothing |
| `Invites.GroupInviteStore.ConsumeAndCreateMemberToken` | internal/svc/group_store.go:338-408 | A join counts, upserts the member and mints a token together, or leaves every table as it was, whichever statement fails |
| `InviteTransactions.CommitIsOneJoin` | internal/svc/group_store.go:338-408 | A commit shows exactly one whole join, on a row that is still below its limit and allows the actor type |
| `InviteTransactions.EveryStepIsAtomic` | internal/svc/group_store.go:338-408 | Each interleaved step shows nothing, one new invite or one whole join; open, refused and rolled back joins stay invisible |
| `InviteTransactions.InviteConservation` | internal/handler/group.go:363-400 | In every interleaving committed joins, tokens and `used_count` of each invite are equal and within its limit, and every join fits the group and actor type of its invite |
| `InviteGrants.TokensAndMembers` | internal/svc/group_store.go:338-408 | In every interleaving each token is for the trimmed group, the kind of actor and the trimmed actor id of a committed join through its invite; that actor is a member of that group; and the members are those of the committed joins, with role and capabilities of their last one |
| `InviteGrants.InvitesAdmit` | internal/svc/group_store.go:485-503 | In every interleaving each invite is one that was asked for, with its defaults, and every committed join fits an active invite with its group and role, for everybody or for the kind of its actor |
| `InviteGrants.StaleIsNotConsumed` | internal/svc/group_store.go:444-465 | An invite that has expired, is not active or is used up is not consumed, whenever it was checked |
| `InviteGrants.UsableIsConsumed` | internal/svc/group_store.go:444-465 | Any other invite counts one more use, which nobody else sees before the commit |
| `InviteTransactions.UninterruptedJoinIsSequential` | internal/handler/group.go:363-400 | While no other join is open, handler check and transaction together show exactly what the sequential method leaves, or nothing when the check refuses: the update guard cannot fail after it |
| `GroupTurns.ListSpeakers` | internal/svc/group_store.go:911-929 | The loop returns the agents, or the leaders when asked for and present |
| `GroupTurns.SelectGroupLeader` | internal/handler/group.go:1284-1296 | The chosen leader is the head of the leaders-first speaker list, or nobody |
| `GroupTurns.FreeChatCandidates` | internal/handler/group.go:1298-1315 | The loop with its set of seen names returns the candidates |
| `GroupTurns.CandidatesAreSpeakers` | internal/handler/group.go:1298-1315 | The candidates are exactly the agents with a row that lets them speak, never the sender, each once, in row order |
| `GroupOutcomes.CandidatesSay` | internal/handler/group.go:1298-1315 | The candidates are exactly the agents with a row that is no observer's, except the sending agent, each once, in the order of the first such rows |
| `GroupTurns.GroupRoom.StreamFreeChatTurn` | internal/handler/group.go:840-924 | The streaming turn leaves the event log, the returned list and the notices of the specification |
| `GroupTurns.GroupRoom.MaybeRunFreeChatTurn` | internal/handler/group.go:973-1045 | The recorded turn leaves the event log and the returned list of the specification |
| `GroupTurns.GroupRoom.StreamLeaderTurn` | internal/handler/group.go:787-838 | The streaming leader turn appends and returns the trimmed reply or the error report |
| `GroupTurns.GroupRoom.MaybeRunLeaderTurn` | internal/handler/group.go:926-971 | The recorded leader turn appends and returns the reply as it is, or the error report |
| `GroupOutcomes.LeaderIs` | internal/handler/group.go:1284-1296 | The leader is the first agent with that role, or else the first agent, or nobody |
| `GroupOutcomes.LeaderSays` | internal/handler/group.go:787-971 | In a led group the leader answers exactly the messages of others than agents, when it can be invoked; a failed answer is reported by its body or status, a blank one is dropped |
| `GroupOutcomes.NobodyLeads` | internal/handler/group.go:1284-1296 | In a group without agents nobody answers as leader |
| `GroupOutcomes.NoReplySays` | internal/handler/group.go:1340-1346 | A text says that there is no reply exactly when, without quotes and spaces around it, it is one of the three markers in any case |
| `GroupOutcomes.FreeChatSays` | internal/handler/group.go:840-1045 | A message that is not the system's makes exactly the invocable candidates speak in their order, up to the number of events that the group allows, each after what was said before; failed answers are reported, blank ones and no-replies skipped; log, returned list and notices are those of these hearings |
| `GroupTurnLaws.FreeChatTurnsAgree` | internal/handler/group.go:840-1045 | When the bytes of each answer that the turn meets give the same deltas frame by frame and line by line, both versions of a free-chat turn append the same events and return the same list |
| `GroupTurnLaws.LeaderTurnsAgree` | internal/handler/group.go:787-971 | Under the same condition on the leader's answer, leader turns agree up to trimming of the content |
| `GroupTurnLaws.EngineAnswerIsConsistent` | internal/handler/group.go:1175-1211 | An answer that is an error or an engine stream, in any chunks, meets the condition |
| `GroupTurnLaws.EngineTurnsAgree` | internal/handler/group.go:787-1045 | In a world of engine agents both kinds of turn agree, whatever the members, the trigger and the chunks |
| `GroupTurnLaws.BrokenOffTurnsPart` | internal/handler/group.go:840-1045 | An agent whose answer ends in an unclosed event: the streaming turn records the closed text, the recorded turn all of it |
| `GroupTurnLaws.FreeChatTurnIsBounded` | internal/handler/group.go:848-924 | A free-chat turn appends what it returns and announces: at most 1 to 8 events, one per speaker, speakers distinct, invocable, in row order, never the sender or an observer |
| `GroupTurnLaws.ChosenLeaderLeads` | internal/handler/group.go:1284-1296 | When some agent is a leader, the chosen one is a leader |
| `CallTree.RpcRequest.ApplyContextMode` | internal/handler/handler.go:1006-1034 | The request is edited in place: the context id is kept, added, or removed for a stateless agent |
| `CallTree.OpenTask` | internal/handler/handler.go:467-503 | The proxy opens a task with the resolved root, the parent headers and the group of the turn |
| `CallTree.PrepareArguments` | internal/engine/engine.go:632-678 | What the turn knows overrides what the model wrote in the hidden arguments |
| `CallTree.ExecuteSendToAgent` | internal/tools/a2a.go:222-308 | The checks refuse in the order of the source, and an admitted call sets the headers that have a value |
| `CallTree.SentFromTurn` | internal/engine/engine.go:645-660 | A call carries the id of its turn, its root and its group, and its target was then a member of that group |
| `CallTree.DeliveredLineage` | internal/handler/handler.go:467-503 | The opened task has the calling task as parent and the group of the call; its root is the one sent, or, when none was sent, the context of the called agent |
| `HopOutcomes.OpenedSays` | internal/handler/handler.go:467-503 | The opened task has the context that the request names, or the new one, or none for a stateless agent; its root is the header, else the parameter, else that context; its parents and group are those of the headers |
| `HopOutcomes.ContextSays` | internal/handler/handler.go:1006-1034 | The context parameter is kept, written or taken away, and no other parameter changes |
| `HopOutcomes.CredentialsDecide` | cmd/server/main.go:675-774 | Principal and group that a caller writes itself count for nothing; the credentials alone decide who gets through and in which group the turn runs |
| `HopOutcomes.ArgumentsComeBack` | internal/tools/a2a.go:222-235 | Every tool argument is read back from under its own name |
| `HopOutcomes.HiddenSays` | internal/engine/engine.go:632-678 | What the turn knows stands over what the model wrote; agent, message and the named group are the model's |
| `GoStrings.TrimSpaceSays` | internal/tools/a2a.go:637-642 | Trimming an argument takes away all spaces at its two ends and nothing else |
| `HopOutcomes.SentIff` | internal/tools/a2a.go:222-308 | A call is sent exactly when agent and message are named and, in the group that it is about, target and source are members; its headers are its trimmed arguments |
| `HopOutcomes.RefusedSays` | internal/tools/a2a.go:222-290 | A refused call gives the first reason that holds |
| `HopOutcomes.HopSays` | internal/tools/a2a.go:222-308 | The task that a call opens has the calling task as parent and the call as parent call, and a context of its own |
| `CallTree.RootKeptIffCarried` | internal/tools/a2a.go:231-298 | A hop keeps the root, whatever the model writes, if and only if the root is present, not blank and has no space at its ends |
| `CallTree.GroupKeptIffCarried` | internal/tools/a2a.go:637-642 | A hop stays in the group of its turn, whatever group the model asks for, if and only if the group id is not blank and has no space at its ends |
| `CallTreeRuns.ParentsExisted` | internal/handler/handler.go:467-503 | In every run, when no request from outside carries a parent header, a called task has a parent that existed before it and every other task has none |
| `CallTreeRuns.TreesShareRootAndGroup` | internal/tools/a2a.go:231-298 | In every run and at every depth all tasks of a tree share the root of the top task and run in its group, when these are not blank and have no space at their ends; each called agent was a member of that group when its call was checked |
| `CallTreeRuns.FreshTreesShareTheirContext` | internal/handler/handler.go:1036-1052 | In every run, a request that names neither context nor root, to an agent that keeps contexts, opens a tree in which every task at every depth has the new context as its root |
| `CallTreeRuns.MemberTreesStayInTheirGroup` | cmd/server/main.go:675-774 | In every run, the whole tree of a member's request, whatever headers it carries and whatever its agents call, runs in the group of the member's token, and every agent in it was a member of that group when it was checked, as long as the group id has no space at its ends |
| `Registry.AgentRegistry.RegisterAgent` | internal/svc/registry.go:131-211 | A registration with the right secret, a URL and a passing card stores and connects the agent together, and otherwise changes nothing |
| `Registry.AgentRegistry.UpdateAgentMetadata` | internal/svc/registry.go:214-277 | An update of an external agent reconnects it under its new or old URL, and otherwise changes nothing |
| `Registry.AgentRegistry.DisconnectAgent` | internal/svc/registry.go:344-358 | Disconnecting clears connection and counter and marks the row |
| `Registry.AgentRegistry.RestoreConnections` | internal/svc/registry.go:361-397 | The restore loop reconnects what answers and marks the rest as disconnected |
| `Registry.AgentRegistry.RunHealthCheck` | internal/svc/registry.go:465-610 | Both phases, in any order and cancelled at any point, leave the specified state |
| `Registry.AgentRegistry.RecordFailure` | internal/svc/registry.go:612-629 | A failure counts, and the third in a row removes the connection and marks the row |
| `RegistryLaws.RestoreEstablishesAgreement` | internal/svc/registry.go:361-397 | Restoring establishes agreement, whatever the store holds and whoever answers |
| `RegistryLaws.StoreAndConnectionsAgree` | internal/svc/registry.go:131-610 | After startup and between any operations, an external agent with a URL is stored as connected exactly when it is live, and the counters are the failure streaks |
| `RegistryAgents.HealthPassSays` | internal/svc/registry.go:465-629 | A health pass, in any order and cancelled at any point, does to each agent what its own answers give when the pass comes to its check and to its retry: hosted agents fail by their health URL alone, others also by their card; row, connection and counter are spelled out |
| `RegistryAgents.RemovedIffThirdFailure` | internal/svc/registry.go:465-629 | Such a pass removes a live agent if and only if it comes to its check, the agent has a URL, does not answer, and had failed at least twice since its last success, reconnect or disconnect, and no retry in the same pass is answered; its row then says why |
| `RegistryAgents.RestoreSays` | internal/svc/registry.go:361-397 | Restoring connects every listed agent that answers, with its stored or fetched card, and marks the others |
| `RegistryAgents.RegistrationSays` | internal/svc/registry.go:131-211 | A registration is accepted for a new name or with the stored secret, and when the agent can be reached; it stores and connects that agent, keeps its counter, and leaves all others alone |
| `RegistryAgents.UpdateSays` | internal/svc/registry.go:214-277 | An update reaches external agents only, keeps kind, secret and counter, and keeps the URL when the new one is blank |
| `RegistryAgents.BuiltinSays` | internal/svc/registry.go:300-342 | A built-in agent is stored and connected without a URL, with its counter kept, and every other agent is left alone |
| `RegistryAgents.DisconnectSays` | internal/svc/registry.go:344-358 | Disconnecting clears connection and counter of one agent and marks its row |
| `RegistryLaws.RegistrationKeepsStreak` | internal/svc/registry.go:197-211 | Registering keeps the counter: one failed check then removes the agent if and only if it had failed twice before |
| `RegistryLaws.RegisteredAgentIsRemoved` | internal/svc/registry.go:197-211 | A run from startup on: two failing health passes, a successful registration, and the next failing pass removes the agent |
| `SensitiveKeys.SensitiveKeyShape` | internal/redact/redaction.go:111-133 | Under any Unicode tables, a key is sensitive exactly when its squeezed lower-case form ends in token, secret or password, contains apikey or authorization, or is key |
| `SensitiveKeys.SensitiveKeySays` | internal/redact/redaction.go:111-133 | Whatever spaces stand around a key, whatever separates its words and in whatever case they are, it is sensitive exactly by its squeezed letters |
| `Redaction.ReplaceMembers` | internal/redact/redaction.go:87-96 | Overwriting the members in any order gives the redacted object |
| `Redaction.ReplaceJSONValue` | internal/redact/redaction.go:85-109 | The recursion through tree and text ends and returns the redacted value |
| `Redaction.Text` | internal/redact/redaction.go:20-32 | The entry point returns the redacted JSON text or the redacted plain text |
| `Redaction.TextSays` | internal/redact/redaction.go:20-32 | An empty text stays empty, a text that is not JSON goes through the expressions for whole texts, and a JSON text becomes a JSON text with the marker under every sensitive key, the same keys and lengths, the same numbers, truth values and nulls, and every plain text rewritten, at every place that is reached through no sensitive key |
| `Redaction.RedactionCommutes` | internal/redact/redaction.go:66-109 | Redaction commutes with every path through members, items and strings that are themselves JSON, as long as it uses no sensitive key |
| `Redaction.SensitiveMembersAreMarked` | internal/redact/redaction.go:85-109 | At every depth, also inside JSON strings, a sensitive-keyed member becomes exactly the marker, objects keep their keys and arrays their lengths |
| `Redaction.DisguisedKeysAreMarked` | internal/redact/redaction.go:111-133 | The marker also replaces members whose key hides behind case, spaces, hyphens or underscores |
| `Redaction.RedactionIsIdempotentIff` | internal/redact/redaction.go:85-109 | Redacting a redacted value changes nothing if and only if every plain text that the redaction reaches, also inside strings that are JSON, is rewritten to a text that stays as it is |
| `Redaction.RedactingTextTwiceIff` | internal/redact/redaction.go:66-83 | The same for a whole JSON text |
| `Redaction.QuotedSecretChangesAgain` | internal/redact/redaction.go:85-109 | A quoted secret that is rewritten to a JSON string, and is encoded anew by a second redaction |

## Left out

- MySQL, HTTP, LLM calls, timers and tokens: oracles, parameters or fresh values; failing store writes outside
  the join transaction are not modelled.
- `encoding/json`, `regexp`, `net/url` and `crypto`: the codec and the plain-text redaction are parameters, so
  nothing is said about which credentials the regular expressions find.
- Overlapping registry operations: the health pass takes its snapshots without holding a lock throughout.
- Row locks wait, and are not timed out or chosen as deadlock victims; a rollback at any point covers both.
- Membership rows that are changed or deleted by other handlers while a join is open.
- The automatic artifact of a group turn, its prompts and its delta notices: text assembly over the same events.
- Failing appends to a group log, which end a turn early with an error.
- `TaskInterleaving` leaves out the listing of startable tasks after a completion, which only reads.
- Tool calls of subagents carry no lineage and are not part of the call trees.
- Requests from outside that forge a parent header: `CallTreeRuns` assumes none, and the parent of such a task
  need not exist.
- Percent-escapes in agent names, which the path of a call does not encode.
- The legacy lineage repair at startup, whose effect depends on database restrictions.
- `SafeTraceData`, card normalisation, bridge invokers, CRUD handlers, CORS, rate limits, statistics and the web
  front ends: single-branch or library code, or repetitions of the framing modelled here.
- `task_items` columns for times, and completion times: clock fields without effect on the modelled decisions.
- LoopAnswers.OwnAnswerIffNoClash: the direction from correct answers to distinct ids needs calls with different
  answers, since equal answers hide a clash.
