/** The two turn implementations of fchat/src/service.rs, proved against the turn specification. */
module ChatService {
  import opened Wrappers
  import opened ProviderModel
  import opened Retry
  import opened ChatTurn
  import Ordered
  import Text

  /** `collect_output`. */
  method CollectOutput(items: seq<OutputItem>) returns (text: string, calls: seq<ToolCall>)
    ensures text == OutputText(items) && calls == OutputCalls(items)
  {
    text, calls := "", [];
    for i := 0 to |items|
      invariant OutputText(items) == text + OutputText(items[i..])
      invariant OutputCalls(items) == calls + OutputCalls(items[i..])
    {
      assert items[i..][1..] == items[i + 1..];
      match items[i] {
        case MessageItem(message) =>
          if message.role == Assistant {
            text := text + message.content;
          }
        case CallItem(call) =>
          calls := calls + [call];
      }
    }
  }

  lemma DrainStep(g: Gathered, items: StreamItems, event: StreamEvent, rest: Drained, events: seq<ChatEvent>)
    requires items != [] && items[0] == Ok(event) && rest == Drain(Gather(g, event), items[1..])
    ensures var d := Drain(g, items); d.(events := events + d.events) == rest.(events := (events + Forwarded(event)) + rest.events)
  {
    hide Gather, Forwarded;
    assert events + (Forwarded(event) + rest.events) == (events + Forwarded(event)) + rest.events;
  }

  lemma DrainStops(g: Gathered, items: StreamItems)
    requires items == [] || items[0].Err?
    ensures Drain(g, items) == Drained(g, [], if items == [] then None else Some(items[0].error))
  {
  }

  lemma EventsOfOne(log: seq<Act>, act: Act)
    ensures EventsOf(log + [act]) == EventsOf(log) + Visible(act)
  {
    EventsOfAppend(log, [act]);
    assert EventsOf([act]) == Visible(act) + EventsOf([]);
  }

  lemma EventsOfTool(log: seq<Act>, call: ToolCall)
    ensures EventsOf(log + ToolStartActs(true, call)) == EventsOf(log) + [ToolExecutionStarted(call)]
    ensures EventsOf(log + ToolActs(true, call)) == EventsOf(log) + [ToolExecutionStarted(call)] + [ToolExecutionFinished(call)]
  {
    hide EventsOf;
    var started, ran, finished := Emitted(ToolExecutionStarted(call)), Executed(call), Emitted(ToolExecutionFinished(call));
    EventsOfOne(log, started);
    EventsOfOne(log + [started], ran);
    EventsOfOne(log + [started] + [ran], finished);
    assert log + ToolStartActs(true, call) == log + [started] + [ran];
    assert log + ToolActs(true, call) == log + [started] + [ran] + [finished];
  }

  /** Tool execution so far: results, log and number of executions before what remains. */
  function ToolsAfter(results: seq<ToolResult>, log: seq<Act>, executions: nat, rest: ToolRun): ToolRun {
    ToolRun(results + rest.results, log + rest.log, executions + rest.executions, rest.error)
  }

  lemma ToolsStep(tools: ToolRuntime, id: SessionId, streaming: bool, calls: seq<ToolCall>, execs: nat, result: ToolResult,
                  results: seq<ToolResult>, log: seq<Act>, executions: nat)
    requires calls != [] && tools(execs, calls[0], id) == Ok(result)
    ensures ToolsAfter(results, log, executions, RunTools(tools, id, streaming, calls, execs))
         == ToolsAfter(results + [result], log + ToolActs(streaming, calls[0]), executions + 1, RunTools(tools, id, streaming, calls[1..], execs + 1))
  {
    hide ToolActs;
    var rest := RunTools(tools, id, streaming, calls[1..], execs + 1);
    assert results + ([result] + rest.results) == (results + [result]) + rest.results;
    assert log + (ToolActs(streaming, calls[0]) + rest.log) == (log + ToolActs(streaming, calls[0])) + rest.log;
  }

  lemma ToolsStop(tools: ToolRuntime, id: SessionId, streaming: bool, calls: seq<ToolCall>, execs: nat,
                  results: seq<ToolResult>, log: seq<Act>, executions: nat)
    requires calls == [] || tools(execs, calls[0], id).Err?
    ensures var ran := ToolsAfter(results, log, executions, RunTools(tools, id, streaming, calls, execs));
      if calls == [] then
        ran == ToolRun(results, log, executions, None)
      else
        ran == ToolRun(results, log + ToolStartActs(streaming, calls[0]), executions + 1, Some(OfTool(tools(execs, calls[0], id).error)))
  {
  }

  class ConversationStore {
    var sessions: map<SessionId, seq<Message>>
    var operations: nat
    const fault: nat -> Option<ChatError>

    constructor (fault: nat -> Option<ChatError>)
      ensures State() == Store(map[], 0, fault)
    {
      this.sessions, this.operations, this.fault := map[], 0, fault;
    }

    function State(): Store
      reads this
    {
      Store(sessions, operations, fault)
    }

    method LoadMessages(id: SessionId) returns (r: Result<seq<Message>, ChatError>)
      modifies this`operations
      ensures (State(), r) == old(State()).Load(id)
    {
      operations := operations + 1;
      match fault(operations - 1) {
        case Some(e) => r := Err(e);
        case None => r := Ok(if id in sessions then sessions[id] else []);
      }
    }

    method AppendMessages(id: SessionId, messages: seq<Message>) returns (e: Option<ChatError>)
      modifies this
      ensures (State(), e) == old(State()).Append(id, messages)
    {
      operations := operations + 1;
      e := fault(operations - 1);
      if e == None {
        var history := if id in sessions then sessions[id] else [];
        sessions := sessions[id := history + messages];
      }
    }
  }

  class ChatService {
    const service: Service
    const store: ConversationStore
    var calls: nat
    var execs: nat

    constructor (service: Service, store: ConversationStore)
      ensures this.service == service && this.store == store && calls == 0 && execs == 0
    {
      this.service, this.store, this.calls, this.execs := service, store, 0, 0;
    }

    function State(): World
      reads this, store
    {
      World(store.State(), calls, execs)
    }

    /** `prepare_turn`: the conversation up to and including the user's message, and the options with their defaults. */
    method PrepareTurn(request: ChatTurnRequest) returns (r: Result<TurnContext, ChatError>)
      modifies store`operations
      ensures if Text.IsBlank(request.userInput) then
                r == Err(InvalidTurn("user_input must not be empty")) && store.State() == old(store.State())
              else
                var (store', loaded) := old(store.State()).Load(request.session.id);
                && store.State() == store'
                && r == match loaded
                   case Err(e) => Err(WithPhase(e, Storage))
                   case Ok(history) => Ok(TurnContext(
                     request.session, UserMessage(request), Preamble(request.session, history) + [UserMessage(request)],
                     if request.temperature.Some? then request.temperature else service.defaultTemperature,
                     if request.maxTokens.Some? then request.maxTokens else service.defaultMaxTokens))
    {
      if Text.IsBlank(request.userInput) {
        return Err(InvalidTurn("user_input must not be empty"));
      }
      var temperature, maxTokens := request.temperature.Or(service.defaultTemperature), request.maxTokens.Or(service.defaultMaxTokens);
      var loaded := store.LoadMessages(request.session.id);
      match loaded {
        case Err(e) => return Err(WithPhase(e, Storage));
        case Ok(prior) =>
          var userMessage := Message(User, request.userInput);
          var conversation: seq<Message> := [];
          if request.session.systemPrompt.Some? {
            conversation := conversation + [Message(System, request.session.systemPrompt.value)];
          }
          conversation := conversation + prior;
          conversation := conversation + [userMessage];
          assert conversation == Preamble(request.session, prior) + [UserMessage(request)];
          return Ok(TurnContext(request.session, userMessage, conversation, temperature, maxTokens));
      }
    }

    /** `complete_with_retry` followed by `collect_output`. */
    method CompleteRound(request: ModelRequest) returns (answer: Result<RoundOutput, ChatError>, ghost acts: seq<Act>)
      requires service.retry.Valid()
      modifies this`calls
      ensures var asked := Ask(service, false, old(calls), request);
        && answer == asked.answer
        && calls == old(calls) + asked.attempts
        && acts == Hooks(asked.hooks) + Emits(asked.events)
    {
      var r, attempts, hooks, _ := ExecuteWithRetry(service.retry, CompleteOutcome(service, calls, request));
      calls := calls + attempts;
      acts := Hooks(hooks);
      match r {
        case Err(e) => answer := Err(OfProvider(e, ProviderPhase));
        case Ok(response) =>
          var text, toolCalls := CollectOutput(response.output);
          answer := Ok(RoundOutput(text, toolCalls, response.stopReason, response.usage));
      }
    }

    /** The tool loop of `run_turn`. */
    method ExecuteTools(tools: ToolRuntime, id: SessionId, toolCalls: seq<ToolCall>)
      returns (r: Result<seq<ToolResult>, ChatError>, ghost ran: ToolRun)
      modifies this`execs
      ensures ran == RunTools(tools, id, false, toolCalls, old(execs))
      ensures execs == old(execs) + ran.executions
      ensures r == if ran.error.Some? then Err(ran.error.value) else Ok(ran.results)
    {
      var results: seq<ToolResult> := [];
      ghost var log: seq<Act> := [];
      hide RunTools;
      ran := RunTools(tools, id, false, toolCalls, old(execs));
      assert toolCalls[0..] == toolCalls;
      for i := 0 to |toolCalls|
        invariant execs == old(execs) + i
        invariant ran == ToolsAfter(results, log, i, RunTools(tools, id, false, toolCalls[i..], execs))
      {
        assert toolCalls[i..][1..] == toolCalls[i + 1..];
        var executed := tools(execs, toolCalls[i], id);
        if executed.Err? {
          ToolsStop(tools, id, false, toolCalls[i..], execs, results, log, i);
          execs := execs + 1;
          return Err(OfTool(executed.error)), ran;
        }
        ToolsStep(tools, id, false, toolCalls[i..], execs, executed.value, results, log, i);
        execs := execs + 1;
        results := results + [executed.value];
        log := log + ToolActs(false, toolCalls[i]);
      }
      ToolsStop(tools, id, false, toolCalls[|toolCalls|..], execs, results, log, |toolCalls|);
      r := Ok(results);
    }

    /** `build_request` and `complete_with_retry`: one non-streaming round up to its output. */
    method RequestRound(ghost s: Setup, session: ChatSession, conversation: seq<Message>, temperature: Option<real>, maxTokens: Option<u32>, toolResults: seq<ToolResult>,
                        ghost persisted: seq<Message>, ghost trips: nat)
      returns (answer: Result<RoundOutput, ChatError>, request: ModelRequest, ghost before: seq<Act>)
      requires s == Setup(service, session, temperature, maxTokens, false) && service.retry.Valid()
      modifies this`calls
      ensures var end := Turn(s, conversation, persisted, trips, toolResults, old(calls), execs);
        if answer.Err? then
          end.outcome == Err(answer.error) && end.calls == calls && end.execs == execs
        else
          end == Proceed(s, conversation, persisted, trips, request, answer.value, calls, execs).After([], before)
    {
      hide Turn, Proceed, Ask, Hooks, Emits;
      request, before := ModelRequest(session.model, conversation, temperature, maxTokens, false, toolResults), [];
      var invalid := Validate(request);
      if invalid.Some? {
        TurnRejected(s, conversation, persisted, trips, toolResults, calls, execs);
        return Err(OfProvider(invalid.value, RequestValidation)), request, before;
      }
      TurnAsks(s, conversation, persisted, trips, toolResults, calls, execs, request, Ask(service, false, calls, request));
      answer, before := CompleteRound(request);
    }

    /** The loop of `run_turn`: it leaves with what is to be stored, or with the first error. */
    method RunRounds(ghost s: Setup, session: ChatSession, conversation0: seq<Message>, user: Message, temperature: Option<real>, maxTokens: Option<u32>)
      returns (r: Result<Finish, ChatError>, ghost end: TurnEnd)
      requires s == Setup(service, session, temperature, maxTokens, false) && service.retry.Valid()
      modifies this
      ensures end == Turn(s, conversation0, [user], 0, [], old(calls), old(execs))
      ensures r == end.outcome && calls == end.calls && execs == end.execs
    {
      hide Turn, Proceed, RunTools;
      var conversation, persisted := conversation0, [user];
      end := Turn(s, conversation, persisted, 0, [], calls, execs);
      var answer, request, log := RequestRound(s, session, conversation, temperature, maxTokens, [], persisted, 0);
      if answer.Err? {
        return Err(answer.error), end;
      }
      var output := answer.value;
      ghost var rounds: seq<Round> := [];
      var roundTrips := 0;
      while true
        invariant end == Proceed(s, conversation, persisted, roundTrips, request, output, calls, execs).After(rounds, log)
        decreases if roundTrips < service.maxToolRoundTrips then service.maxToolRoundTrips - roundTrips else 0
      {
        ghost var before := Proceed(s, conversation, persisted, roundTrips, request, output, calls, execs);
        ghost var conversation0', persisted0 := conversation, persisted;
        var assistant := Message(Assistant, output.text);
        conversation := conversation + [assistant];
        persisted := persisted + [assistant];

        var limitReached := service.tools.Some? && output.calls != [] && roundTrips >= service.maxToolRoundTrips;
        var shouldRunTools := && service.tools.Some? && service.maxToolRoundTrips > 0
                              && output.calls != [] && roundTrips < service.maxToolRoundTrips;
        if !shouldRunTools {
          ProceedStops(s, conversation0', persisted0, roundTrips, request, output, calls, execs);
          return Ok(Finish(persisted, output, limitReached)), end;
        }

        ghost var firstExec := execs;
        ghost var ran' := RunTools(service.tools.value, session.id, false, output.calls, execs);
        ProceedRunsTools(s, conversation0', persisted0, roundTrips, request, output, calls, execs, ran');
        var executed, ran := ExecuteTools(service.tools.value, session.id, output.calls);
        if executed.Err? {
          return Err(executed.error), end;
        }
        ghost var round := Round(request, Ok(output), ran.results, firstExec);
        roundTrips := roundTrips + 1;
        ghost var next := Turn(s, conversation, persisted, roundTrips, executed.value, calls, execs);
        assert before == next.After([round], ran.log);
        var answer', request', asked := RequestRound(s, session, conversation, temperature, maxTokens, executed.value, persisted, roundTrips);
        AfterAfter(next, rounds, log, [round], ran.log);
        if answer'.Err? {
          return Err(answer'.error), end;
        }
        request, output := request', answer'.value;
        AfterAfter(Proceed(s, conversation, persisted, roundTrips, request, output, calls, execs), rounds + [round], log + ran.log, [], asked);
        rounds, log := rounds + [round] + [], log + ran.log + asked;
      }
    }

    /** `run_turn`. */
    method RunTurn(request: ChatTurnRequest) returns (r: Result<ChatTurnResult, ChatError>, ghost report: TurnReport)
      requires service.retry.Valid()
      modifies this, store
      ensures report == WholeTurn(service, request, false, old(State()))
      ensures State() == report.world && r == report.outcome
    {
      hide Turn;
      report := WholeTurn(service, request, false, old(State()));
      if request.stream {
        return Err(InvalidTurn("use stream_turn for streaming requests")), report;
      }
      var prepared := PrepareTurn(request);
      if prepared.Err? {
        return Err(prepared.error), report;
      }
      var context := prepared.value;
      ghost var s := SetupOf(service, request, false);
      ghost var loaded := store.State();
      var rounds, end := RunRounds(s, context.session, context.conversation, context.userMessage, context.temperature, context.maxTokens);
      assert report == Concluded(s, loaded, end);
      if rounds.Err? {
        return Err(rounds.error), report;
      }
      var finish := rounds.value;
      var fault := store.AppendMessages(request.session.id, finish.persisted);
      if fault.Some? {
        return Err(WithPhase(fault.value, Storage)), report;
      }
      var output := finish.output;
      r := Ok(ChatTurnResult(request.session.id, output.text, output.calls, output.stopReason, output.usage, finish.limitReached));
    }

    // ---- the streaming form ----

    /** The retry loop written out inside `stream_turn`; it follows the same protocol as `ExecuteWithRetry`. */
    method AcquireStream(request: ModelRequest)
      returns (r: Result<StreamItems, ProviderError>, attempts: nat, hooks: seq<HookEvent>, slept: seq<real>)
      requires service.retry.Valid()
      ensures var outcome := StreamOutcome(service, calls, request);
        && attempts == StopAttempt(service.retry, outcome, 1)
        && r == outcome(attempts)
        && hooks == HookTrace(service.retry, outcome)
        && slept == Delays(service.retry, attempts)
    {
      hide RetryPolicy.Backoff;
      ghost var outcome := StreamOutcome(service, calls, request);
      var attempt := 1;
      hooks, slept := [], [];
      while true
        invariant 1 <= attempt
        invariant forall i :: 1 <= i < attempt ==> outcome(i).Err?
        invariant StopAttempt(service.retry, outcome, 1) == StopAttempt(service.retry, outcome, attempt)
        invariant hooks == FailedAttempts(service.retry, outcome, attempt)
        invariant slept == Delays(service.retry, attempt)
        decreases if attempt < service.retry.maxAttempts then service.retry.maxAttempts - attempt else 0
      {
        hooks := hooks + [AttemptStart(attempt)];
        var acquired := service.provider.stream(calls + attempt, request);
        if acquired.Ok? {
          hooks := hooks + [Success(attempt)];
          return acquired, attempt, hooks, slept;
        } else if service.retry.ShouldRetry(attempt, acquired.error) {
          var delay := service.retry.Backoff(attempt);
          hooks := hooks + [RetryScheduled(attempt, delay, acquired.error)];
          slept := slept + [delay];
          attempt := attempt + 1;
        } else {
          hooks := hooks + [Failure(attempt, acquired.error)];
          return acquired, attempt, hooks, slept;
        }
      }
    }

    /** The event loop of one round of `stream_turn`. */
    method DrainStream(items: StreamItems) returns (events: seq<ChatEvent>, r: Result<RoundOutput, ProviderError>)
      ensures var d := Drain(NOTHING, items);
        && events == d.events
        && r == if d.error.Some? then Err(d.error.value) else Ok(Output(d.gathered))
    {
      hide Drain, Ordered.ByName, OutputText, OutputCalls;
      var text, toolCalls, stopReason, usage := "", map[], Other, NO_USAGE;
      events := [];
      ghost var d := Drain(NOTHING, items);
      assert items[0..] == items;
      for i := 0 to |items|
        invariant var rest := Drain(Gathered(text, toolCalls, stopReason, usage), items[i..]);
          d == rest.(events := events + rest.events)
      {
        ghost var g := Gathered(text, toolCalls, stopReason, usage);
        if items[i].Err? {
          DrainStops(g, items[i..]);
          return events, Err(items[i].error);
        }
        var event := items[i].value;
        assert items[i..][1..] == items[i + 1..];
        DrainStep(g, items[i..], event, Drain(Gather(g, event), items[i + 1..]), events);
        match event {
          case TextDelta(delta) =>
            text := text + delta;
            events := events + [TextChunk(delta)];
          case ToolCallDelta(call) =>
            toolCalls := toolCalls[call.id := call];
            events := events + [ToolCallChunk(call)];
          case MessageComplete(message) =>
            if message.role == Assistant {
              if text == "" {
                text := message.content;
              }
              events := events + [AssistantMessageComplete(message.content)];
            }
          case ResponseComplete(response) =>
            var content, outputCalls := CollectOutput(response.output);
            if content != "" {
              text := content;
            }
            toolCalls := InsertAll(toolCalls, outputCalls);
            stopReason, usage := response.stopReason, response.usage;
        }
        assert Gathered(text, toolCalls, stopReason, usage) == Gather(g, event);
      }
      DrainStops(Gathered(text, toolCalls, stopReason, usage), items[|items|..]);
      r := Ok(RoundOutput(text, Ordered.ByName(toolCalls), stopReason, usage));
    }

    method InsertAll(m: map<string, ToolCall>, toolCalls: seq<ToolCall>) returns (r: map<string, ToolCall>)
      ensures r == InsertCalls(m, toolCalls)
    {
      r := m;
      for i := 0 to |toolCalls|
        invariant InsertCalls(m, toolCalls) == InsertCalls(r, toolCalls[i..])
      {
        assert toolCalls[i..][1..] == toolCalls[i + 1..];
        r := r[toolCalls[i].id := toolCalls[i]];
      }
    }

    /** One streaming round up to its output: build the request, acquire the stream, read it. */
    method StreamRound(ghost s: Setup, session: ChatSession, conversation: seq<Message>, temperature: Option<real>, maxTokens: Option<u32>, toolResults: seq<ToolResult>,
                       ghost persisted: seq<Message>, ghost trips: nat)
      returns (events: seq<ChatEvent>, answer: Result<RoundOutput, ChatError>, ghost request: ModelRequest, ghost before: seq<Act>)
      requires s == Setup(service, session, temperature, maxTokens, true) && service.retry.Valid()
      modifies this`calls
      ensures var end := Turn(s, conversation, persisted, trips, toolResults, old(calls), execs);
        if answer.Err? then
          end.outcome == Err(answer.error) && end.calls == calls && end.execs == execs && EventsOf(end.log) == events
        else
          && end == Proceed(s, conversation, persisted, trips, request, answer.value, calls, execs).After([], before)
          && EventsOf(before) == events
    {
      hide Turn, Proceed, Ask, Drain, Output, Hooks, Emits, StopAttempt, HookTrace, EventsOf, Validate, StreamOutcome;
      EventsOfNothing();
      var modelRequest := ModelRequest(session.model, conversation, temperature, maxTokens, true, toolResults);
      request, before, events := modelRequest, [], [];
      var invalid := Validate(modelRequest);
      if invalid.Some? {
        TurnRejected(s, conversation, persisted, trips, toolResults, calls, execs);
        return events, Err(OfProvider(invalid.value, RequestValidation)), request, before;
      }
      ghost var asked := Ask(service, true, calls, request);
      TurnAsks(s, conversation, persisted, trips, toolResults, calls, execs, request, asked);
      before := Hooks(asked.hooks) + Emits(asked.events);
      EventsOfAppend(Hooks(asked.hooks), Emits(asked.events));
      EventsOfHooks(asked.hooks);
      EventsOfEmits(asked.events);
      var acquired, attempts, _, _ := AcquireStream(modelRequest);
      ghost var calls0 := calls;
      calls := calls + attempts;
      if acquired.Err? {
        AskNotAcquired(service, calls0, request, attempts, acquired.error);
        return events, Err(OfProvider(acquired.error, ProviderPhase)), request, before;
      }
      AskDrained(service, calls0, request, attempts, acquired.value);
      var drained;
      events, drained := DrainStream(acquired.value);
      answer := if drained.Err? then Err(OfProvider(drained.error, Streaming)) else Ok(drained.value);
    }

    /** The tool loop of `stream_turn`, with the two events around each execution. */
    method StreamTools(tools: ToolRuntime, id: SessionId, toolCalls: seq<ToolCall>)
      returns (events: seq<ChatEvent>, r: Result<seq<ToolResult>, ChatError>, ghost ran: ToolRun)
      modifies this`execs
      ensures ran == RunTools(tools, id, true, toolCalls, old(execs))
      ensures execs == old(execs) + ran.executions
      ensures events == EventsOf(ran.log)
      ensures r == if ran.error.Some? then Err(ran.error.value) else Ok(ran.results)
    {
      var results: seq<ToolResult> := [];
      ghost var log: seq<Act> := [];
      events := [];
      hide RunTools, EventsOf;
      EventsOfNothing();
      ran := RunTools(tools, id, true, toolCalls, old(execs));
      assert toolCalls[0..] == toolCalls;
      for i := 0 to |toolCalls|
        invariant execs == old(execs) + i
        invariant events == EventsOf(log)
        invariant ran == ToolsAfter(results, log, i, RunTools(tools, id, true, toolCalls[i..], execs))
      {
        assert toolCalls[i..][1..] == toolCalls[i + 1..];
        EventsOfTool(log, toolCalls[i]);
        events := events + [ToolExecutionStarted(toolCalls[i])];
        var executed := tools(execs, toolCalls[i], id);
        if executed.Err? {
          ToolsStop(tools, id, true, toolCalls[i..], execs, results, log, i);
          execs := execs + 1;
          return events, Err(OfTool(executed.error)), ran;
        }
        ToolsStep(tools, id, true, toolCalls[i..], execs, executed.value, results, log, i);
        execs := execs + 1;
        events := events + [ToolExecutionFinished(toolCalls[i])];
        results := results + [executed.value];
        log := log + ToolActs(true, toolCalls[i]);
      }
      ToolsStop(tools, id, true, toolCalls[|toolCalls|..], execs, results, log, |toolCalls|);
      r := Ok(results);
    }

    /** The loop of `stream_turn` up to, and without, the append to the store. */
    method StreamRounds(ghost s: Setup, session: ChatSession, conversation0: seq<Message>, user: Message, temperature: Option<real>, maxTokens: Option<u32>)
      returns (events: seq<ChatEvent>, r: Result<Finish, ChatError>, ghost end: TurnEnd)
      requires s == Setup(service, session, temperature, maxTokens, true) && service.retry.Valid()
      modifies this
      ensures end == Turn(s, conversation0, [user], 0, [], old(calls), old(execs))
      ensures r == end.outcome && calls == end.calls && execs == end.execs && events == EventsOf(end.log)
    {
      hide Turn, Proceed, RunTools;
      var conversation, persisted := conversation0, [user];
      var roundTrips := 0;
      var nextToolResults: seq<ToolResult> := [];
      ghost var rounds: seq<Round>, log: seq<Act> := [], [];
      events := [];
      end := Turn(s, conversation, persisted, 0, [], calls, execs);
      while true
        invariant end == Turn(s, conversation, persisted, roundTrips, nextToolResults, calls, execs).After(rounds, log)
        invariant events == EventsOf(log)
        decreases if roundTrips < service.maxToolRoundTrips then service.maxToolRoundTrips - roundTrips else 0
      {
        ghost var here := Turn(s, conversation, persisted, roundTrips, nextToolResults, calls, execs);
        EventsOfAppend(log, here.log);
        var chunk, answer, request, asked := StreamRound(s, session, conversation, temperature, maxTokens, nextToolResults, persisted, roundTrips);
        events := events + chunk;
        if answer.Err? {
          return events, Err(answer.error), end;
        }
        var output := answer.value;
        ghost var rest := Proceed(s, conversation, persisted, roundTrips, request, output, calls, execs);
        AfterAfter(rest, rounds, log, [], asked);
        EventsOfAppend(log, asked);
        EventsOfAppend(log + asked, rest.log);
        ghost var conversation1, persisted1 := conversation, persisted;
        var assistant := Message(Assistant, output.text);
        conversation := conversation + [assistant];
        persisted := persisted + [assistant];

        var limitReached := service.tools.Some? && output.calls != [] && roundTrips >= service.maxToolRoundTrips;
        var shouldRunTools := service.tools.Some? && output.calls != [] && roundTrips < service.maxToolRoundTrips;
        if limitReached {
          events := events + [ToolRoundLimitReached(service.maxToolRoundTrips, |output.calls|)];
        }
        if !shouldRunTools {
          ProceedStops(s, conversation1, persisted1, roundTrips, request, output, calls, execs);
          return events, Ok(Finish(persisted, output, limitReached)), end;
        }
        ghost var ran' := RunTools(service.tools.value, session.id, true, output.calls, execs);
        ProceedRunsTools(s, conversation1, persisted1, roundTrips, request, output, calls, execs, ran');
        ghost var firstExec := execs;
        var toolEvents, executed, ran := StreamTools(service.tools.value, session.id, output.calls);
        events := events + toolEvents;
        if executed.Err? {
          return events, Err(executed.error), end;
        }
        roundTrips := roundTrips + 1;
        nextToolResults := executed.value;
        ghost var round := Round(request, Ok(output), ran.results, firstExec);
        AfterAfter(Turn(s, conversation, persisted, roundTrips, nextToolResults, calls, execs), rounds + [], log + asked, [round], ran.log);
        EventsOfAppend(log + asked, ran.log);
        rounds, log := rounds + [] + [round], log + asked + ran.log;
      }
    }

    /** `stream_turn`, its stream read to the end: the events a consumer receives and how the stream ends. */
    method StreamTurn(request: ChatTurnRequest) returns (events: seq<ChatEvent>, r: Result<ChatTurnResult, ChatError>, ghost report: TurnReport)
      requires service.retry.Valid()
      modifies this, store
      ensures report == WholeTurn(service, request, true, old(State()))
      ensures State() == report.world && r == report.outcome && events == EventsOf(report.log)
    {
      hide Turn, EventsOf, Text.IsBlank;
      EventsOfNothing();
      report := WholeTurn(service, request, true, old(State()));
      events := [];
      var prepared := PrepareTurn(request);
      if prepared.Err? {
        return events, Err(prepared.error), report;
      }
      var context := prepared.value;
      ghost var s := SetupOf(service, request, true);
      ghost var loaded := store.State();
      var emitted, rounds, end := StreamRounds(s, context.session, context.conversation, context.userMessage, context.temperature, context.maxTokens);
      events := emitted;
      assert report == Concluded(s, loaded, end);
      if rounds.Err? {
        return events, Err(rounds.error), report;
      }
      var finish := rounds.value;
      var output := finish.output;
      var result := ChatTurnResult(request.session.id, output.text, output.calls, output.stopReason, output.usage, finish.limitReached);
      var fault := store.AppendMessages(request.session.id, finish.persisted);
      if fault.Some? {
        return events, Err(WithPhase(fault.value, Storage)), report;
      }
      EventsOfOne(end.log, Stored(finish.persisted));
      EventsOfOne(end.log + [Stored(finish.persisted)], Emitted(TurnComplete(result)));
      events := events + [TurnComplete(result)];
      r := Ok(result);
    }
  }
}
