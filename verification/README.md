# fiddlesticks, verified

A Dafny model of the stateful core of the fiddlesticks agent runtime and proofs about it: the chat turn in its two
forms, the streaming decoders of the OpenAI adapter, the retry loop, the memory backends, the harness run loop and the
credential manager. `dafny verify dfyconfig.toml` checks everything.

Code that works step by step in the source (loops, services, stores, backends, the accumulator, the harness, the
credential manager) is a method or a class here and is proved against a specification; what the source promises is then
proved about that specification for all inputs. Everything outside the model answers as an oracle: the provider, the
tool runtime, the validator, the health check and the clock are arbitrary functions of how often they were asked, and
the chat store and the harness's memory may reject any operation up front.

How the parts fit together:

- **Chat turns.** `ChatTurn` specifies one turn as a recursion over model rounds. `ChatService` proves `run_turn` and
  `stream_turn` (with its own copy of the retry loop) equal to it. `TurnLaws` has the round cap, the pairing of calls
  and results and the transcript law over any sequence of turns; `TurnContents` what every request, stored message,
  answer, result and error of a turn holds, field by field and by position; `TurnGrammar` the event grammar as an automaton;
  `TurnEquivalence` the agreement of the two forms, first for one round with its exact condition, then for whole turns.
- **Decoders.** `ResponsesWs` and `ResponsesWsLaws` model the WebSocket event accumulator and compose it with the turn
  equivalence: over this transport the two forms agree exactly when the events of every request sent reach a terminal
  response event. Where a connection closes before that, `run_turn` may retry and succeed while `stream_turn` fails;
  such a turn is given. `WsContents` tells what the accumulator and its final response hold by the fields of the events.
  `SseTransport`, `SseLaws` and `SseContents` model the line buffer of the HTTP stream: the final message is told by the
  deltas of each index, the result does not depend on how the text is cut, nothing is lost in the deltas, and streaming agrees
  with the final response under an exact condition on ids, which the source does not always meet.
- **Retry.** `Retry` has the hook protocol and the delays over non-negative reals. That delays never decrease is false
  of the code when the attempt limit passes 2^31 + 1, because the exponent is cast to `i32`; the exact condition is
  proved and a failing policy given. A negative multiplier makes the conversion to a duration panic, exactly at odd powers.
- **Memory.** `MemoryModel` is the in-memory backend and the specification; `MemoryContents` tells what a session holds
  after any operations by those operations. `Tables` and `SqliteBackend` (tables with
  row ids shared by all sessions) and `FilesystemBackend` (a file per session under a hex name) refine it for every
  sequence of operations. `Backends` says exactly what a durable backend may change: the session id inside a manifest
  becomes its key, SQLite reads an empty init plan as none, and times before the epoch are refused, by SQLite's
  initialization only after it has written the manifest and the features.
- **Harness.** `HarnessPolicy`, `HarnessRuns`, `Harness` and `HarnessHistory`. A run is told as the list of features it worked on, each with
  the turns it took, and the reason it stopped; every exit, error exits included, is one of ten. From this follow the
  turn budget, the conservation of the feature list and the meaning of `validated` and `no_pending_features`. That an
  unlimited run ends is false for a list in which a pending record stands behind another of its id. The condition is
  exact, and the initializer's validation together with every later run keeps it, so that every sequence of runs ends.
  What a run keeps holds of every run, also of one that need not end: `RunAtMost` follows it for any number of features.
  `RunAll` gives the history of any sequence of runs over any sessions, and `HarnessHistory` says of every run in it what
  it did or why it failed, by its request, the stored sessions and the answers of chat, validator and memory.
- **Credentials.** `CredentialModel`, `Credentials` and `CredentialContents`. Entries that expire lazily answer like a reading in which nothing is
  removed, whatever was looked at in between. What laziness does show (a rotation instead of a first set, the answer of
  a revocation) is stated with its exact condition on what was done and looked at before. What every later read answers is
  told by the operation that stored the credential and the time of the read.

Two facts the documentation does not tell: `started_at` of a run's two checkpoints is read from the clock twice, first for
the final one; and the inner loop of a harness run never runs out of turns silently, although the code has no branch
for that, because the retry budget and the turn cap are checked on every path that goes round.

## Model

| member | source | states |
|---|---|---|
| ChatService.CollectOutput | fchat/src/service.rs:539-555 | the loop returns the concatenation of the assistant messages of an output and its tool calls in order |
| ChatService.ConversationStore.LoadMessages | fchat/src/store.rs:44-56 | a load changes nothing but the fault counter and returns the session's history, empty for an unknown session |
| ChatService.ConversationStore.AppendMessages | fchat/src/store.rs:58-78 | an append either fails and stores nothing or adds all messages, in order, to that session alone |
| ChatService.ChatService.PrepareTurn | fchat/src/service.rs:434-470 | a blank input is refused before the store is read; otherwise the conversation is the optional system prompt, the stored history and the user message, and absent options take the policy's defaults; `TurnContents.RequestContents` says so of every request, by position |
| ChatService.ChatService.CompleteRound | fchat/src/service.rs:472-497 | validation, retries with their hook calls, and the collected output are those of one non-streaming request of the turn specification |
| ChatService.ChatService.RequestRound | fchat/src/service.rs:508-537 | one round of `run_turn`, request built from the whole conversation and the previous round's results only |
| ChatService.ChatService.ExecuteTools | fchat/src/service.rs:236-247 | the tool loop runs the calls in order and stops at the first failure |
| ChatService.ChatService.RunRounds | fchat/src/service.rs:203-263 | the round loop of `run_turn` ends exactly like the recursive turn specification: same messages to store, limit flag, log and counters |
| ChatService.ChatService.RunTurn | fchat/src/service.rs:173-264 | `run_turn` refines the turn specification for every provider, tool runtime, store and retry policy |
| ChatService.ChatService.AcquireStream | fchat/src/service.rs:300-329 | the retry loop written out in `stream_turn` has the same hook trace, sleeps and outcome as `execute_with_retry` |
| ChatService.ChatService.DrainStream | fchat/src/service.rs:331-371 | the event loop of one round: gathered text, id-keyed calls, completed response and forwarded events, up to the first stream error |
| ChatService.ChatService.StreamRound | fchat/src/service.rs:287-375 | one streaming round is the streaming request of the turn specification |
| ChatService.ChatService.StreamTools | fchat/src/service.rs:391-405 | the streaming tool loop emits started and finished around each execution and stops at the first failure |
| ChatService.ChatService.StreamRounds | fchat/src/service.rs:285-412 | the round loop of `stream_turn` ends exactly like the turn specification |
| ChatService.ChatService.StreamTurn | fchat/src/service.rs:266-432 | `stream_turn`, read to its end, refines the same turn specification, and its visible events are those of the log |
| TurnLaws.ToolsComplete | fchat/src/service.rs:236-247 | a tool loop without error yields exactly one result per call, in order |
| TurnLaws.RoundsLaw | fchat/src/service.rs:188-263 | from any point of a turn: at most the remaining rounds, requests chained to the previous round's results, and the stored messages are one answer per round |
| TurnLaws.ProceedLaw | fchat/src/service.rs:203-263 | the same after an answered round: it either finishes, with the limit flag iff a runtime exists and calls remain, or executes every call before the next request |
| TurnLaws.WholeTurnLaw | fchat/src/service.rs:173-264 | at most `max_tool_round_trips + 1` requests; request i carries exactly the results of response i-1; success takes two store operations, a load and one append of a non-blank user message and one answer per response; failure leaves all sessions as they were; the limit flag is exact |
| TurnLaws.OneTurn | fchat/src/service.rs:434-470 | one turn keeps every history a transcript (no system prompt stored), extends its own session only |
| TurnLaws.TranscriptLaw | fchat/src/service.rs:188-263 | over any sequence of turns in either form, histories only grow, unnamed sessions are untouched, and stored histories remain transcripts without system messages |
| TurnContents.RequestContents | fchat/src/service.rs:434-497 | every request of a turn, by position and field: the system prompt if there is one, the stored history, the user's input, then the answers of the rounds before it; the results of the round before it; the session's model and the turn's options or the defaults |
| TurnContents.StoredContents | fchat/src/service.rs:203-263 | a successful turn puts the user's message and one assistant message per answer behind the stored history, by position, and its result carries the session id and the text, calls, stop reason and usage of the last answer |
| TurnContents.LimitUsesAllTrips | fchat/src/service.rs:203-263 | calls are left unexecuted only when `max_tool_round_trips` rounds of tools were run, and then the result says that the limit was reached |
| TurnContents.CompletedAnswer | fchat/src/service.rs:472-555 | a completed request is answered by its first attempt that is not a retryable failure below the limit, with the text and calls of that response, or fails with that attempt's error, its kind and retryability kept |
| TurnContents.StreamedAnswer | fchat/src/service.rs:300-371 | a streamed request is opened in the same way, and what is read from the stream is its answer unless the stream breaks off, which is never retried |
| TurnContents.OutputAppend | fchat/src/service.rs:539-555 | text and calls of an output are gathered item by item in order |
| TurnContents.GatheredText | fchat/src/service.rs:338-359 | without a final response the text of a stream is that of the first event that brings any, followed by the deltas after it |
| TurnContents.GatheredCall | fchat/src/service.rs:343-348 | an id holds the call of its last delta |
| TurnContents.FinalResponseWins | fchat/src/service.rs:355-371 | the final response has the last word on text, if it has any, on its calls, on stop reason and usage; calls it does not name stay |
| TurnContents.ForwardedInOrder | fchat/src/service.rs:336-354 | the events forwarded to the consumer are the stream's text deltas, call deltas and assistant messages with their contents, all of them and in order |
| TurnContents.ReadUpToError | fchat/src/service.rs:336-338 | a stream is read up to its first error |
| TurnContents.ToolsStopAtFailure | fchat/src/service.rs:236-247 | tool execution fails with the error of the first failing call, which is the last one executed, and otherwise all calls succeeded |
| TurnContents.FailureContents | fchat/src/service.rs:173-263 | every round is answered by the provider at calls the turn made, and a failed turn has the error, phase and source of one of these: wrong form, blank input, store before or after the rounds, a rejected request, the last round's provider error or its failing tool |
| TurnContents.CountersMatchLog | fchat/src/service.rs:188-263 | the provider was called once per logged attempt and the tools once per logged execution |
| TurnGrammar.StreamGrammar | fchat/src/service.rs:336-428 | the log of `stream_turn` is a complete word of the event grammar iff the turn succeeds, and otherwise an unbroken one that can be completed |
| TurnGrammar.StreamedEvents | fchat/src/service.rs:384-428 | a successful log ends with its one append and its one `TurnComplete`, which carries the result; a failing log holds neither; a limit event stands only right before the append, or last in a failing log; likewise for the events a consumer sees |
| TurnGrammar.Completion | fchat/src/service.rs:376-428 | every phase a failing turn can stop in has a continuation to a complete word |
| TurnGrammar.RoundsFollow | fchat/src/service.rs:285-428 | rounds follow the grammar from the start or from after a tool loop |
| TurnGrammar.FollowTools | fchat/src/service.rs:391-405 | a non-empty tool loop is a run of adjacent started/finished pairs of the same call, and a failed one stops after its execution |
| TurnEquivalence.RoundAgreementIff | fchat/src/service.rs:331-371 | one round: streaming reads the same text and call list as completing exactly when the events mirror the response |
| TurnEquivalence.ListedIff | fchat/src/service.rs:355-371 | the id-ordered map lists exactly the response's calls iff their ids strictly increase and no other id was streamed |
| TurnEquivalence.TurnsAgree | fchat/src/service.rs:188-263 | from any point on, when the requests the turn comes to send are answered alike, the two forms go through the same rounds to the same end |
| TurnEquivalence.WholeTurnsAgree | fchat/src/service.rs:173-432 | with a consistent provider the two forms return the same result, leave the same store and counters, make the same requests up to the stream flag, and the log of one is the other's without its emitted events |
| TurnEquivalence.WholeTurnsAgreeAlong | fchat/src/service.rs:173-432 | the same when only those requests are answered alike that the turn comes to send |
| Retry.RetryPolicy.Backoff | fprovider/src/resilience.rs:52-56 | every delay is at most `max_backoff` and, unless the multiplier is negative, not negative, the exponent's cast to `i32` included |
| Retry.PanicsIff | fprovider/src/resilience.rs:52-56 | the delay is negative, where the conversion to a duration panics, iff the multiplier is negative, the initial delay is not zero and the cast exponent is odd |
| Retry.ExecuteWithRetry | fprovider/src/resilience.rs:89-131 | the loop stops at the first success or unretryable attempt, at most at `max(1, max_attempts)`, with the specified hook trace and sleeps |
| Retry.StopAttempt | fprovider/src/resilience.rs:48-50 | all attempts before the last failed and were to be retried; the last succeeded or was not |
| Retry.HookProtocol | fprovider/src/resilience.rs:103-126 | the trace is start 1, retry 1, ..., start n, verdict n, at every index |
| Retry.TotalDelay | fprovider/src/resilience.rs:52-56 | with a multiplier that is not negative the sleeps of n attempts add up to at most n-1 times `max_backoff` |
| Retry.BackoffRecurrence | fprovider/src/resilience.rs:52-56 | with a multiplier of at least 1 the first delay is the initial one and each later one the multiplier times its predecessor, all capped, up to attempt 2^31 |
| Retry.DelaysNeverDecreaseIff | fprovider/src/resilience.rs:52-56 | with a multiplier of at least 1 the delays never decrease iff the attempt limit does not pass 2^31 + 1, the multiplier is 1, the initial delay is 0 or even the most negative power reaches the cap, for beyond that limit the cast exponent turns negative |
| Retry.DelaysMayDecrease | fprovider/src/resilience.rs:52-56 | doubling from one second, capped at one second, with the largest attempt limit: delay 2^31 is one second and the next one is shorter |
| Retry.StopsExactly | fprovider/src/resilience.rs:48-50 | the loop goes on after an attempt iff it failed with a retryable error below the limit: an error that is not retryable ends it, a retryable one below the limit does not |
| Retry.BackoffIs | fprovider/src/resilience.rs:52-56 | up to attempt 2^31 the delay behind an attempt is the scaled initial one, capped; from there to 2^32 the exponent is the wrapped negative one, with the case of a zero multiplier |
| Retry.ScaledStep | fprovider/src/resilience.rs:52-56 | scaling starts at the initial delay and multiplies once more for each power, on either side of zero |
| ProviderModel.Validate | fprovider/src/model.rs:184-214 | a request is accepted iff its model is not blank, it has messages, its token limit is not zero and its temperature lies in 0..2 |
| OpenAiTypes.CollectedResponse | fprovider/src/adapters/openai/types.rs:102-127 | converting a response to the common model and collecting its output gives back its text and calls |
| ResponsesWs.ParseMessageText | fprovider/src/adapters/openai/responses_ws.rs:540-552 | the loop concatenates the `output_text` parts of a message item |
| ResponsesWs.ResponsesEventAccumulator.HandleEvent | fprovider/src/adapters/openai/responses_ws.rs:275-402 | each event changes the accumulator and emits chunks, or fails, as its class says |
| ResponsesWs.ResponsesEventAccumulator.ParseCompletedResponse | fprovider/src/adapters/openai/responses_ws.rs:468-538 | the final message overrides accumulated text and calls with those of the terminal response; name and arguments of each call are stated by `WsContents.FinalCallContents` |
| ResponsesWs.CompleteWs | fprovider/src/adapters/openai/responses_ws.rs:146-186 | the loop of `complete` returns the first terminal response or the first error of the reception |
| ResponsesWs.StreamWs | fprovider/src/adapters/openai/responses_ws.rs:207-251 | the loop of `stream` yields the reception's chunks and then its error, if any |
| ResponsesWsLaws.AccumulatorLaw | fprovider/src/adapters/openai/responses_ws.rs:266-402 | over all event sequences: text is the seed followed by all emitted deltas, every key is its call's id, keys are never removed |
| ResponsesWsLaws.SnapshotIsCurrent | fprovider/src/adapters/openai/responses_ws.rs:297-372 | each emitted call delta is the current map entry under its own id, and other entries stay |
| ResponsesWsLaws.ReceptionCovers | fprovider/src/adapters/openai/responses_ws.rs:275-402 | a finished reception ends with the message and response chunks, and what it streamed is covered by the final calls |
| ResponsesWsLaws.WsDelivers | fprovider/src/adapters/openai/responses_ws.rs:128-257 | every event sequence that reaches a terminal response gives both forms the same text and the same calls in the same order |
| ResponsesWsLaws.WsAsksAgreeIff | fprovider/src/adapters/openai/responses_ws.rs:128-257 | one request gets the same answer in both forms iff the events of its first call reach a terminal response event |
| ResponsesWsLaws.WsTurnsAgreeIff | fprovider/src/adapters/openai/responses_ws.rs:128-257 | over this transport the two forms of a whole turn come to the same result, for any number of rounds, iff the events of every request the streamed turn sends reach a terminal response event; they then agree in store, counters, requests and actions too |
| ResponsesWsLaws.ClosedThenRetried | fprovider/src/adapters/openai/responses_ws.rs:149-155 | a connection that closes on the first call is retried by `run_turn`, which gets the answer of the second, and ends the stream of `stream_turn` with an error |
| ResponsesWsLaws.ClosedTurnsDiffer | fprovider/src/adapters/openai/responses_ws.rs:149-155 | a whole turn that succeeds in one form and fails in the other |
| WsContents.TextDeltaEvent | fprovider/src/adapters/openai/responses_ws.rs:283-296 | a text delta is appended and passed on, an empty one does nothing |
| WsContents.ArgumentsDeltaEvent | fprovider/src/adapters/openai/responses_ws.rs:297-341 | an arguments delta is appended to the arguments of the call it names, a non-empty name replaces the name, and that call goes out; other calls and the text stay |
| WsContents.CallItemEvent | fprovider/src/adapters/openai/responses_ws.rs:342-373 | a call item replaces name and arguments of its call where it gives them, and that call goes out |
| WsContents.OtherItemEvent | fprovider/src/adapters/openai/responses_ws.rs:342-382 | a message item gives the text while there is none, any other item nothing |
| WsContents.OtherEvents | fprovider/src/adapters/openai/responses_ws.rs:275-402 | the four terminal types finish, `error` fails, and every type not named is ignored |
| WsContents.ReportedError | fprovider/src/adapters/openai/responses_ws.rs:600-630 | message, kind and retryability of an error event, iff per kind, by its code and its status |
| WsContents.ArgumentsHistory | fprovider/src/adapters/openai/responses_ws.rs:297-373 | after any events the arguments of a call are those an item set last, followed by all later deltas for it |
| WsContents.ArgumentsGrow | fprovider/src/adapters/openai/responses_ws.rs:297-341 | while no item sets them, arguments grow by exactly the deltas for their call, in order |
| WsContents.NameHistory | fprovider/src/adapters/openai/responses_ws.rs:297-373 | after any events a call is there iff it was or some event touched it, and its name is the last one given |
| WsContents.FinalCallContents | fprovider/src/adapters/openai/responses_ws.rs:481-518 | an id with call items in the terminal response has the name and arguments of the last of them |
| WsContents.UnnamedCallStays | fprovider/src/adapters/openai/responses_ws.rs:481-518 | an id without call items keeps the accumulated call, if there is one |
| WsContents.FinalTextContents | fprovider/src/adapters/openai/responses_ws.rs:480-493 | the final text is that of the last assistant message item that has any, else the accumulated text |
| WsContents.FinalResponseContents | fprovider/src/adapters/openai/responses_ws.rs:468-538 | the final message lists the final calls once each in the order of their ids, with the response's model or the requested one |
| WsContents.FinishContents | fprovider/src/adapters/openai/responses_ws.rs:554-579 | the finish reason, iff per reason, by the stop reason in any letter case or else the status |
| WsContents.ReceptionEnds | fprovider/src/adapters/openai/responses_ws.rs:146-257 | a reception ends at its first frame that does not pass, with the terminal response, the reported error or a retryable transport error, after the chunks of the events up to there |
| SseTransport.ApplyDeltas | fprovider/src/adapters/openai/transport.rs:244-273 | the tool-call delta loop merges by index and emits the snapshot after each named delta; what a merged call holds is stated by `SseContents.CallContents` |
| SseTransport.ApplyPayload | fprovider/src/adapters/openai/transport.rs:229-278 | one payload updates model, content, calls and finish reason and emits its chunks |
| SseTransport.DrainLines | fprovider/src/adapters/openai/transport.rs:215-279 | the inner loop handles exactly the complete lines of the buffer and keeps the remainder |
| SseTransport.DecodeStream | fprovider/src/adapters/openai/transport.rs:200-302 | the whole buffer loop equals decoding the newline-terminated lines of all received text, with the same chunks, error, `[DONE]` stop or end |
| SseLaws.LinesPartition | fprovider/src/adapters/openai/transport.rs:215-217 | the lines and the remainder are the text, cut after each newline and nowhere else |
| SseLaws.LinesUnique | fprovider/src/adapters/openai/transport.rs:215-217 | any other cut into newline-terminated lines and a newline-free remainder is the same one |
| SseLaws.LineCountsIff | fprovider/src/adapters/openai/transport.rs:216-221 | a line is not skipped iff `data:` stands first after white space |
| SseLaws.DataLineReads | fprovider/src/adapters/openai/transport.rs:223-227 | a line written as `data:`, space, payload and any blank ending reads back as that payload, and `[DONE]` as the end mark |
| SseLaws.FragmentationIndependence | fprovider/src/adapters/openai/transport.rs:200-302 | any two ways of cutting one text into fragments decode to the same chunks and the same outcome |
| SseLaws.Conservation | fprovider/src/adapters/openai/transport.rs:229-278 | from any state over any lines, content grows by exactly the emitted text and the calls are the earlier ones overwritten by the emitted snapshots |
| SseLaws.LastSnapshotStays | fprovider/src/adapters/openai/transport.rs:246-271 | overwritten by snapshots, an index holds the call of its last one |
| SseLaws.StreamConserves | fprovider/src/adapters/openai/transport.rs:286-301 | a stream without error is deltas, then the final message, then the final response; the message's text is the emitted text and its calls the last snapshots in index order |
| SseLaws.HttpRoundIff | fchat/src/service.rs:331-371 | over HTTP streaming and collecting the final response agree iff final ids strictly increase and no snapshot went out under an id that is not final |
| SseLaws.HttpText | fchat/src/service.rs:339-359 | the text `stream_turn` gathers is in any case the final content |
| SseLaws.HttpMapKeys | fchat/src/service.rs:343-371 | the id-keyed map has an entry for every streamed id and every final one, and no other |
| SseLaws.HttpMapIff | fchat/src/service.rs:343-371 | the id-keyed map holds exactly the final calls iff their ids are distinct and no stale id was streamed |
| SseLaws.StableIdsSuffice | fprovider/src/adapters/openai/transport.rs:246-259 | ids that are given by each index's first delta, never change and are distinct across indices are enough for that |
| SseLaws.ChangedIdLeavesStaleCall | fprovider/src/adapters/openai/transport.rs:246-271 | a text and a parser at which a tool call changes its id after the first delta: the stream does not fail and its response has one call, but the map of `stream_turn` holds two and its output is not the response's |
| SseContents.CallContents | fprovider/src/adapters/openai/transport.rs:246-271 | after any deltas the call of an index has as arguments the earlier ones followed by all that were given for it, in order, and as name and id the last ones given, the earlier ones or the defaults |
| SseContents.SnapshotAt | fprovider/src/adapters/openai/transport.rs:268-271 | each snapshot is the call of its index after the deltas up to it |
| SseContents.PayloadContents | fprovider/src/adapters/openai/transport.rs:229-278 | a payload's first choice alone counts: its content is appended and emitted first, its deltas are merged, the first model and the last finish reason are kept |
| SseContents.StateContents | fprovider/src/adapters/openai/transport.rs:229-278 | the same over any lines: contents joined, deltas merged in order, first model, last finish reason |
| SseContents.DecodingEnds | fprovider/src/adapters/openai/transport.rs:216-232 | decoding ends at the first end mark or payload that does not parse, and nothing behind it counts |
| SseContents.StreamEnds | fprovider/src/adapters/openai/transport.rs:200-302 | a stream fails iff a payload does not parse or the transport fails before an end mark, with that message as a retryable transport error |
| SseContents.FinalContents | fprovider/src/adapters/openai/transport.rs:286-301 | the final response of any text: all content, one call per index in order with the arguments, name and id its deltas gave, model, finish reason and no usage |
| MemoryModel.FindFeature | fmemory/src/backend.rs:292-314 | the index found is the first with that id, and none is found iff none has it |
| MemoryModel.InMemoryMemoryBackend.IsInitialized | fmemory/src/backend.rs:169-184 | a session is initialized iff it has a manifest |
| MemoryModel.InMemoryMemoryBackend.InitializeSessionIfMissing | fmemory/src/backend.rs:186-218 | an initialized session is left alone; otherwise manifest and list are set and entry and checkpoint appended, in this session only |
| MemoryModel.InMemoryMemoryBackend.LoadBootstrapState | fmemory/src/backend.rs:220-241 | the loaded state is the session's, empty for an unknown one |
| MemoryModel.InMemoryMemoryBackend.SaveManifest | fmemory/src/backend.rs:243-256 | only the manifest of this session changes |
| MemoryModel.InMemoryMemoryBackend.AppendProgressEntry | fmemory/src/backend.rs:258-275 | one entry is appended to this session |
| MemoryModel.InMemoryMemoryBackend.ReplaceFeatureList | fmemory/src/backend.rs:277-290 | only the list of this session changes |
| MemoryModel.InMemoryMemoryBackend.UpdateFeaturePass | fmemory/src/backend.rs:292-314 | the first record with the id is marked, or the list is unchanged and not found is reported |
| MemoryModel.InMemoryMemoryBackend.RecordRunCheckpoint | fmemory/src/backend.rs:316-333 | one checkpoint is appended to this session |
| MemoryModel.InMemoryMemoryBackend.LoadTranscriptMessages | fmemory/src/backend.rs:335-350 | the session's messages in order |
| MemoryModel.InMemoryMemoryBackend.AppendTranscriptMessages | fmemory/src/backend.rs:352-372 | the messages are appended in order to this session |
| MemoryModel.InMemoryMemoryBackend.Perform | fmemory/src/backend.rs:168-372 | every operation acts on its own session as specified and on no other |
| MemoryContents.TranscriptTold | fmemory/src/backend.rs:352-372 | over any operations on a session its transcript is what was appended, in order |
| MemoryContents.RecordsTold | fmemory/src/backend.rs:186-333 | over any operations the entries and checkpoints are those that came in, alone or with the filling of a session without manifest, in order |
| MemoryContents.ManifestTold | fmemory/src/backend.rs:186-256 | the manifest is the one saved last or given by the initialization of a session without one |
| MemoryContents.FeatureTold | fmemory/src/backend.rs:277-314 | every feature of the list given last keeps its place and text and passes as the last update said that named its id while no earlier feature had it |
| MemoryContents.AnswerTold | fmemory/src/backend.rs:168-372 | what each operation answers, and that looks and refused updates change nothing |
| MemoryCodec.TimeRoundTrip | fmemory/src/backends/sqlite.rs:998-1020 | a time is encoded iff it is not before the epoch, and then decodes to itself |
| MemoryCodec.StatusOf | fmemory/src/backends/sqlite.rs:1022-1039 | a run status decodes from its own name and from no other |
| MemoryCodec.ShellOf | fmemory/src/backends/sqlite.rs:1041-1060 | a shell decodes from its own name and from no other |
| MemoryCodec.RoleOf | fmemory/src/backends/sqlite.rs:1062-1081 | a role decodes from its own name and from no other |
| MemoryCodec.ProgressRoundTrip | fmemory/src/backends/filesystem.rs:449-475 | a progress entry that is encoded decodes to itself |
| MemoryCodec.CheckpointRoundTrip | fmemory/src/backends/filesystem.rs:477-528 | a checkpoint that is encoded decodes to itself |
| MemoryCodec.MessageRoundTrip | fmemory/src/backends/filesystem.rs:530-550 | a message decodes to itself |
| MemoryCodec.ReadRows | fmemory/src/backends/sqlite.rs:640-784 | the loop that fills a result vector decodes all rows in order or reports the first failure |
| Tables.InsertAppends | fmemory/src/backends/sqlite.rs:797-829 | a row inserted at a position no smaller than a session's others comes last in that session's query, and other sessions' queries do not change |
| Tables.DeleteEmpties | fmemory/src/backends/sqlite.rs:284-293 | deleting a session's rows empties its query and no other |
| Tables.UpdateChangesOne | fmemory/src/backends/sqlite.rs:842-882 | updating a row by id changes that row in its session's query and nothing in any other |
| SqliteBackend.SqliteMemoryBackend.SaveManifestRows | fmemory/src/backends/sqlite.rs:163-282 | the manifest read back is the saved one under its key, an empty plan as none; everything else of every session stays |
| SqliteBackend.SqliteMemoryBackend.ReplaceFeatures | fmemory/src/backends/sqlite.rs:284-329 | the list read back is the given one in order; nothing else changes |
| SqliteBackend.SqliteMemoryBackend.InitializeSessionIfMissing | fmemory/src/backends/sqlite.rs:353-463 | the statements in their order give the specified state, also when a time is refused halfway |
| SqliteBackend.SqliteMemoryBackend.LoadBootstrapState | fmemory/src/backends/sqlite.rs:465-784 | on any tables an answer is the session's view, and on tables that satisfy the invariant there is one |
| SqliteBackend.SqliteMemoryBackend.AppendProgressEntry | fmemory/src/backends/sqlite.rs:797-829 | one more entry at the end, or a refused time and no change |
| SqliteBackend.SqliteMemoryBackend.ReplaceFeatureList | fmemory/src/backends/sqlite.rs:831-840 | the session's list becomes the given one |
| SqliteBackend.SqliteMemoryBackend.FirstMatch | fmemory/src/backends/sqlite.rs:850-866 | the selected row is the first in query order with that feature id |
| SqliteBackend.SqliteMemoryBackend.UpdateFeaturePass | fmemory/src/backends/sqlite.rs:842-882 | the update by row id marks exactly the first feature of that id in the session |
| SqliteBackend.SqliteMemoryBackend.RecordRunCheckpoint | fmemory/src/backends/sqlite.rs:884-929 | one more checkpoint at the end, or a refused time and no change |
| SqliteBackend.SqliteMemoryBackend.LoadTranscriptMessages | fmemory/src/backends/sqlite.rs:931-968 | the session's messages in insertion order |
| SqliteBackend.SqliteMemoryBackend.AppendTranscriptMessages | fmemory/src/backends/sqlite.rs:970-995 | all messages appended in order to the session |
| SqliteBackend.SqliteMemoryBackend.Perform | fmemory/src/backends/sqlite.rs:331-996 | every operation keeps the table invariant, acts on its session's view as specified and on no other view |
| SqliteBackend.Replay | fmemory/src/backends/sqlite.rs:331-996 | for any operations on any interleaving of sessions the tables abstract to the in-memory map and every reply agrees, up to the manifest's key and an empty plan |
| Backends.StepRefinesIff | fmemory/src/backend.rs:168-372 | one operation on related states stays related with related replies exactly when its times can be stored |
| Backends.CanonChangesNothingIff | fmemory/src/backends/sqlite.rs:163-282 | a durable backend alters nothing exactly when the manifest carries its own key and, on SQLite, no empty plan |
| FilesystemBackend.HexEncode | fmemory/src/backends/filesystem.rs:661-676 | the pushing loop produces the two-digit form of each byte in order |
| FilesystemBackend.HexInjective | fmemory/src/backends/filesystem.rs:661-676 | different byte strings have different hex forms |
| FilesystemBackend.HexDigits | fmemory/src/backends/filesystem.rs:661-676 | byte k is written as its high and its low digit, in lower case, at places 2k and 2k+1 of the file name, which ends in `.json` |
| FilesystemBackend.PathInjective | fmemory/src/backends/filesystem.rs:36-41 | different sessions have different files |
| FilesystemBackend.ManifestRoundTrip | fmemory/src/backends/filesystem.rs:359-446 | a manifest reads back as itself under the key of its file, an empty plan as an empty plan |
| FilesystemBackend.FilesystemMemoryBackend.LoadState | fmemory/src/backends/filesystem.rs:43-55 | the stored state of the session's own file, or a new one when there is no file |
| FilesystemBackend.FilesystemMemoryBackend.SaveState | fmemory/src/backends/filesystem.rs:57-68 | the session's own file is replaced and no other session's view changes |
| FilesystemBackend.FilesystemMemoryBackend.InitializeSessionIfMissing | fmemory/src/backends/filesystem.rs:88-124 | as specified, and a refused time leaves the file as it was |
| FilesystemBackend.FilesystemMemoryBackend.LoadBootstrapState | fmemory/src/backends/filesystem.rs:126-140 | on any files an answer is the view, and on intact files there is one |
| FilesystemBackend.FilesystemMemoryBackend.UpdateFeaturePass | fmemory/src/backends/filesystem.rs:195-215 | the first feature of that id is marked, or not found is reported and the file is not written |
| FilesystemBackend.FilesystemMemoryBackend.Perform | fmemory/src/backends/filesystem.rs:71-274 | every operation keeps the files intact, acts on its session's view as specified and on no other |
| FilesystemBackend.Replay | fmemory/src/backends/filesystem.rs:71-274 | for any operations on any interleaving of sessions the files abstract to the in-memory map and every reply agrees, up to the manifest's key |
| HarnessPolicy.FirstPendingIsFirst | fharness/src/traits.rs:83-87 | the default selector returns the first pending feature, and none iff all pass |
| HarnessPolicy.DefaultSelectorPicksPending | fharness/src/traits.rs:83-87 | its choice is a pending member of the list |
| HarnessPolicy.MarkPending | fharness/src/harness.rs:688-696 | marking a chosen pending feature that is the first of its id leaves exactly one fewer pending |
| HarnessPolicy.MarkAllLaw | fharness/src/harness.rs:688-696 | passing never reverts, only pass flags change, and with distinct ids exactly the named features pass in addition |
| HarnessRuns.UnlimitedRunEndsIff | fharness/src/harness.rs:616-718 | with the default selector and turns that all validate, a run without limit reaches a loop head with nothing left to do iff no pending record stands behind another of its id |
| HarnessRuns.ShadowedRunGoesOn | fharness/src/harness.rs:616-718 | otherwise it reaches, for every number, a loop head after that many features with work left |
| HarnessRuns.ShadowedListNeverEnds | fharness/src/harness.rs:616-718 | a passing feature before a pending one of the same id is such a list |
| HarnessPolicy.ProcessedInListOrder | fharness/src/traits.rs:83-87 | with distinct ids the selector's successive choices are the first pending ids in list order |
| HarnessRuns.WorkIsBounded | fharness/src/harness.rs:650-717 | work on a feature ends at exactly one turn, within both `max_turns_per_run` and `retry_budget + 1` |
| HarnessRuns.WorkedOnIff | fharness/src/harness.rs:650-717 | work on a feature told by chat, validator and policy alone, iff: after each turn but the last the chat failed or the validator refused and no fail-fast flag forbids going on; after the last that is not so, or the two caps allow no more |
| HarnessRuns.RefusedTakesAllTurns | fharness/src/harness.rs:650-717 | a feature refused at every turn with no flag that ends the run takes exactly the smaller of `max_turns_per_run` and `retry_budget + 1` turns |
| HarnessRuns.TurnBudget | fharness/src/harness.rs:616-718 | a run takes at least one turn and at most the per-feature budget for each feature it processes |
| HarnessRuns.LimitedRunBudget | fharness/src/types.rs:293-299 | a run in a limited mode takes at most the feature limit times the per-feature budget |
| HarnessRuns.HonestCompletion | fharness/src/harness.rs:596-733 | with `validated` the processed ids are the validated ones, without it one more, the selected one; `no_pending_features` iff every stored feature passes; a run that stops early with work left has reached its limit |
| HarnessRuns.ResultTold | fharness/src/harness.rs:596-733 | a good result has the request's session and mode, the ids worked on, the last of them as selected, the message of the last turn, and `validated` iff the validator accepted that turn |
| HarnessRuns.FailureTold | fharness/src/harness.rs:569-734 | a failed run has one of these causes: an operation rejected just before, no manifest, a heeded health check, a selector without work, a selected feature that is not stored, or the chat's or validator's error at the last turn |
| HarnessRuns.TurnsNeedHealth | fharness/src/harness.rs:575-608 | only a run of an initialized session takes turns, with its stored objective, and none when a heeded health check objects to its plan |
| HarnessRuns.SaidTold | fharness/src/harness.rs:736-766 | the transcript of a run grows by what the chat stored at its turns, feature by feature and in order, and by nothing else |
| HarnessRuns.LimitsTold | fharness/src/types.rs:293-299 | the strict mode processes at most one feature, the bounded one at most the configured number, and a good run that leaves work has used its limit up |
| HarnessRuns.ProcessesInOrder | fharness/src/harness.rs:610-733 | with the default selector and distinct ids the processed ids are a prefix of the pending ids in list order, and the validated ones lack at most the last |
| Harness.ValidateFeatureList | fharness/src/harness.rs:822-867 | the loop with its id set accepts a list iff it is not empty, its ids are distinct and every entry is named, described, has steps and is pending |
| Harness.StarterListAcceptable | fharness/src/harness.rs:504-567 | the starter list passes that validation for every objective |
| Harness.Harness.WorkOnFeature | fharness/src/harness.rs:650-717 | the inner loop keeps turns used plus retries remaining at `retry_budget`, stops at the first decisive turn, and ends by marking the feature, by reporting it unvalidated or by an error, never by running out of turns |
| Harness.Harness.BeginRun | fharness/src/harness.rs:575-608 | before the loop a run ends with a rejected load, without manifest, on a health check the policy heeds or with everything passing, and otherwise stands at the loop head |
| Harness.Harness.ProcessNext | fharness/src/harness.rs:616-718 | one pass of the outer loop, over any list and with any selector: it marks the selected feature and is back at the head, or it ends the run in one of the listed ways |
| Harness.Harness.Conclude | fharness/src/harness.rs:720-733 | behind the loop the run ends at its limit and tells whether everything passes |
| Harness.Harness.ProcessFeatures | fharness/src/harness.rs:610-733 | the outer loop ends, and ends in one of the listed ways with the law of the run |
| Harness.Harness.RunAtMost | fharness/src/harness.rs:569-734 | any run, also one that need not end, has after any number of features ended with the law of the run or marked exactly those features, with nothing else but the transcript changed |
| Harness.Harness.RunTaskIterationInner | fharness/src/harness.rs:569-734 | on every exit, error exits and rejected memory operations included, the stored list is the starting list with exactly the validated ids marked, nothing else but the transcript changed, and the result is the one its reason for stopping calls for |
| Harness.Harness.RecordFinalHandoff | fharness/src/harness.rs:776-804 | the final checkpoint and then the entry, as far as the memory accepts them |
| Harness.Harness.RunTaskIteration | fharness/src/harness.rs:430-502 | without a chat service, or with the first checkpoint rejected, nothing is recorded; otherwise the run stands between its two checkpoints whatever its result |
| Harness.HandoffLaw | fharness/src/harness.rs:452-501 | exactly the checkpoint in progress, the final one and one entry are appended, with their times, run id and note; the final status is success iff all stored features pass or all processed ones were validated |
| Harness.RejectedHandoff | fharness/src/harness.rs:776-804 | when the handoff is rejected its error replaces the result, and what the run marked and its first checkpoint stay |
| Harness.FramedRunEvolves | fharness/src/harness.rs:430-502 | a run keeps ids distinct, takes back no pass, keeps the manifest and only appends to the records |
| Harness.Harness.RunInitializer | fharness/src/harness.rs:364-428 | an invalid request or a rejected operation changes nothing; an initialized session stays as it is; any other gets manifest, list, entry and checkpoint with the fields of the request, and the answer tells what is stored |
| Harness.Harness.Run | fharness/src/harness.rs:240-290 | a rejected phase read changes nothing; a session without manifest gets exactly an initializer with the request's fields, the default summary included; any other gets exactly a task run with the session, run id, stream flag and prompt override of the request |
| Harness.Harness.RunAll | fharness/src/harness.rs:240-290 | from a memory whose lists have distinct ids any sequence of runs ends, in every mode, and each run obeys the law of its phase from the sessions and counters the one before it left |
| Harness.HistoryEvolves | fharness/src/harness.rs:240-290 | between any two points of a sequence of runs every session keeps distinct ids, passes, manifest and records |
| HarnessHistory.IteratedRun | fharness/src/harness.rs:430-733 | a task run that ends well anywhere in a sequence marked exactly the ids it reports as validated, each accepted by the validator at a turn of this run, reports nothing pending iff all stored features pass, and leaves its two checkpoints and its entry |
| HarnessHistory.InitializedRun | fharness/src/harness.rs:364-428 | an initializer that ends well found no manifest and leaves the one asked for, the wanted list or the starter list, all pending, one entry with the summary and one open checkpoint, and takes no turn |
| HarnessHistory.UnrejectedRun | fharness/src/harness.rs:240-502 | with no operation rejected, an initializer ends well iff its request is valid, a task run needs the chat service, and its final checkpoint is a success iff the run ended well and validated |
| HarnessHistory.FailedRun | fharness/src/harness.rs:240-502 | a failed run anywhere in a sequence has one of the listed causes, told by memory, session, request, health check, selector and its last turn |
| HarnessHistory.InitializedOnce | fharness/src/harness.rs:232-290 | after one run of a session that ended well, every later one that ends well is a task run |
| HarnessHistory.SequenceMarks | fharness/src/harness.rs:616-718 | over task runs that end well a session's list is the one it began with, with exactly the ids its runs reported as validated marked |
| CredentialModel.StepRefines | fprovider/src/credentials.rs:299-523 | one operation on related states answers as the eager reading does and keeps the states related |
| CredentialModel.ReadsAreEager | fprovider/src/credentials.rs:299-434 | under a non-decreasing clock every read of every history answers as the last deposit not since revoked and not yet expired |
| CredentialModel.LookingChangesNothing | fprovider/src/credentials.rs:299-332 | leaving out a look, with the removal it may cause, changes no later answer but a rotation time or a revocation of an expired entry |
| CredentialModel.StoredIff | fprovider/src/credentials.rs:299-523 | over every history, at whatever times, an entry is stored iff its deposit is held and no read came at or after its expiry |
| CredentialModel.LazinessShowsIff | fprovider/src/credentials.rs:450-505 | the answer of a revocation and `Set` against `Rotated` are the eager ones iff nothing is held, or it is over and a read noticed it, or neither |
| CredentialModel.NoticedIsOver | fprovider/src/credentials.rs:507-523 | under a clock that never goes back a noticed expiry is over |
| CredentialModel.LazinessShows | fprovider/src/credentials.rs:450-505 | a key that is over is still revoked or rotated, unless someone looked before |
| CredentialModel.TtlEndsOnTime | fprovider/src/credentials.rs:220-250 | after any history, a key stored with a time to live and not replaced since is found iff the time of looking lies before its end |
| CredentialModel.ClockMustNotGoBack | fprovider/src/credentials.rs:507-523 | a clock that goes back would make the stored entries answer differently |
| CredentialModel.CountsMatchLog | fprovider/src/credentials.rs:84-87 | over every history `access_count` is the number of grants logged since the last `Set` or `Rotated`, capped at the largest u64 |
| CredentialModel.LogTellsOpenings | fprovider/src/credentials.rs:334-434 | over every history the logged accesses are the openings in their order, each granted iff it handed out a credential |
| CredentialContents.KeyStays | fprovider/src/credentials.rs:212-250 | a key set or rotated without a lifetime and not replaced since is found and handed out by every later read, at any time, with its kind and its times |
| CredentialContents.KeyEnds | fprovider/src/credentials.rs:220-250 | a key with a lifetime is found and handed out by every read before its end and by none at or after it |
| CredentialContents.SessionEnds | fprovider/src/credentials.rs:273-297 | a browser session is found and handed out with its token by every read before its expiry, if it has one, and never as a key |
| CredentialContents.NothingFound | fprovider/src/credentials.rs:299-466 | before anything is stored and after a revocation every read finds nothing |
| CredentialContents.StoringTold | fprovider/src/credentials.rs:476-505 | after any history a storing operation leaves the given credential, end and entry time, unused, rotated at that time iff an entry was still there, and one event that says which |
| CredentialContents.RefusalTold | fprovider/src/credentials.rs:220-297 | which error a refused one answers with, the lifetime judged before the secret, and that nothing changes |
| CredentialContents.RevocationTold | fprovider/src/credentials.rs:450-466 | a revocation takes the entry out, and answers and logs with its kind iff it was there |
| CredentialContents.MetadataTold | fprovider/src/credentials.rs:322-332 | metadata read later: rotated at the time of the entry iff one was there when it was stored, used last when it was last handed out |
| Credentials.SecureCredentialManager.RemoveIfExpired | fprovider/src/credentials.rs:507-523 | it reports true iff it removed the entry, which it does iff the entry is expired |
| Credentials.SecureCredentialManager.InsertCredential | fprovider/src/credentials.rs:476-505 | the entry is replaced; it is a rotation iff an entry, expired or not, was there |
| Credentials.SecureCredentialManager.SetApiKeyWithTtl | fprovider/src/credentials.rs:220-238 | zero and out-of-range lifetimes and empty keys are refused without change |
| Credentials.SecureCredentialManager.SetBrowserSession | fprovider/src/credentials.rs:273-297 | an empty token is refused without change |
| Credentials.SecureCredentialManager.RotateApiKey | fprovider/src/credentials.rs:240-250 | as setting, with or without a lifetime; what is then read is stated by `CredentialContents.KeyStays` and `CredentialContents.KeyEnds` |
| Credentials.SecureCredentialManager.HasCredentials | fprovider/src/credentials.rs:299-306 | true iff an entry is stored and not expired |
| Credentials.SecureCredentialManager.CredentialKind | fprovider/src/credentials.rs:308-320 | the kind of the entry iff it is stored and not expired |
| Credentials.SecureCredentialManager.CredentialMetadata | fprovider/src/credentials.rs:322-332 | the metadata of the entry iff it is stored and not expired, and looking does not count as a use |
| Credentials.SecureCredentialManager.WithApiKey | fprovider/src/credentials.rs:334-381 | hands out the stored key iff it is an API key and not expired, and marks it used |
| Credentials.SecureCredentialManager.WithBrowserSession | fprovider/src/credentials.rs:387-434 | hands out the stored session iff it is one and not expired, and marks it used |
| Credentials.SecureCredentialManager.Revoke | fprovider/src/credentials.rs:450-466 | removes the entry, expired or not, and reports and logs it iff there was one |
| Credentials.SecureCredentialManager.Replay | fprovider/src/credentials.rs:299-523 | any history on a new manager answers eagerly, its counts match its log, and its entries, replies and log are those the laws of `CredentialContents` speak of |

## Left out

- Sockets, HTTP, TLS, authentication headers, WebSocket connection handling and reconnection; among it that the WebSocket `stream` keeps a broken socket where `complete` drops it.
- JSON text: a WebSocket event is a value of a JSON datatype, an HTTP payload is parsed by an arbitrary function from text, and the JSON columns and files of the backends hold the lists and records they denote.
- UTF-8 fragments cut inside a character, which the code refuses one by one; fragments here are cut between characters.
- `fmemory/src/backends/postgres.rs`, which repeats the conversions of the file backend without locking its load and save.
- SQL failures in the middle of an operation and crashes inside `write_atomic`; an operation is rejected before it starts or runs to its end, except where a time is refused halfway.
- Lock poisoning, and concurrent use of one store or backend between a turn's load and its append.
- The Anthropic, Ollama and OpenCode Zen adapters, `fobserve`, `fiddlesticks`, `fcommon`, registries and builders, which wrap or relabel.
- `ftooling/src/runtime.rs`: the tool runtime is an oracle for a call's result or error.
- The provider field of messages, hooks and requests, and the tool definitions and metadata of requests, which the modelled code only passes on.
- Streams that a consumer drops before their end; `stream_turn` is read to its end, as the harness does.
- Rounding: temperature and backoff are reals.
- Retry.ExecuteWithRetry: where a delay is negative the source panics and the model goes on; `Retry.PanicsIff` says where that is.
- Harness.Harness.RunTaskIterationInner: in unlimited mode it asks for a selector of pending features and a list without a pending record behind another of its id, for without them it need not end; what it keeps is stated of such runs by `Harness.Harness.RunAtMost`.
- Harness.Harness.ProcessFeatures: likewise, with `Harness.Harness.ProcessNext` for one pass over any list and with any selector.
- Wording of notes and of errors built from other errors; the harness's note is an arbitrary function of the result, memory errors carry one message.
- Harness.Harness.RunAll: in unlimited mode it asks for a selector that picks pending features, as the default one does; a selector that returns passing features keeps an unlimited run going.
- Harness.Harness.ExecuteTurn: the chat service is an oracle for a turn's result and the messages it leaves, in both forms; its own laws are those of `TurnLaws`.
- Harness.Harness.WorkOnFeature: the inner loop is a method of its own here, called from the outer loop where the source writes it inline.
- Phase hooks and event observers of the harness, which only watch.
- The lock around credentials and the wiping of secrets from memory; an observer is always attached, so that its log can be spoken of.
