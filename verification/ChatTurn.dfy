/**
 Chat turns as values: the types of fchat/src/types.rs, error.rs and store.rs, and the specification of one turn.
 Both forms of a turn (`run_turn` and `stream_turn`) are described by the same recursion over model rounds;
 they differ in how a round asks the provider and in the events it emits.

 Provider, tool runtime and store faults are oracles indexed by how often each was called before,
 so that every sequence of answers is covered.
 */
module ChatTurn {
  import opened Wrappers
  import opened ProviderModel
  import opened Retry
  import Ordered
  import Text

  datatype ChatErrorKind = BadRequest | ProviderFault | StoreFault | ToolingFault

  datatype ChatErrorPhase = RequestValidation | ProviderPhase | Tooling | Storage | Streaming

  datatype ToolErrorKind = ToolNotFound | InvalidArguments | Execution | ToolTimeout | Unauthorized | OtherTool

  datatype ToolError = ToolError(kind: ToolErrorKind, message: string, retryable: bool)

  datatype ChatErrorSource = FromProviderKind(provider: ProviderErrorKind) | FromToolKind(tool: ToolErrorKind)

  datatype ChatError = ChatError(
    kind: ChatErrorKind,
    message: string,
    retryable: bool,
    phase: Option<ChatErrorPhase>,
    source: Option<ChatErrorSource>)

  function OfProvider(e: ProviderError, phase: ChatErrorPhase): ChatError {
    ChatError(ProviderFault, e.message, e.retryable, Some(phase), Some(FromProviderKind(e.kind)))
  }

  function OfTool(e: ToolError): ChatError {
    ChatError(ToolingFault, e.message, e.retryable, Some(Tooling), Some(FromToolKind(e.kind)))
  }

  function InvalidTurn(message: string): ChatError {
    ChatError(BadRequest, message, false, None, None)
  }

  datatype ChatSession = ChatSession(id: SessionId, model: string, systemPrompt: Option<string>)

  datatype ChatTurnRequest = ChatTurnRequest(
    session: ChatSession,
    userInput: string,
    temperature: Option<real>,
    maxTokens: Option<u32>,
    stream: bool)

  datatype ChatTurnResult = ChatTurnResult(
    sessionId: SessionId,
    assistantMessage: string,
    toolCalls: seq<ToolCall>,
    stopReason: StopReason,
    usage: TokenUsage,
    toolRoundLimitReached: bool)

  datatype ChatEvent =
    | TextChunk(delta: string)
    | ToolCallChunk(call: ToolCall)
    | AssistantMessageComplete(content: string)
    | ToolExecutionStarted(call: ToolCall)
    | ToolExecutionFinished(call: ToolCall)
    | ToolRoundLimitReached(maxRoundTrips: nat, pendingToolCalls: nat)
    | TurnComplete(result: ChatTurnResult)

  // ---- oracles and configuration ----

  type StreamItems = seq<Result<StreamEvent, ProviderError>>

  datatype Provider = Provider(
    complete: (nat, ModelRequest) -> Result<ModelResponse, ProviderError>,
    stream: (nat, ModelRequest) -> Result<StreamItems, ProviderError>)

  type ToolRuntime = (nat, ToolCall, SessionId) -> Result<ToolResult, ToolError>

  datatype Service = Service(
    provider: Provider,
    tools: Option<ToolRuntime>,
    maxToolRoundTrips: nat,
    defaultTemperature: Option<real>,
    defaultMaxTokens: Option<u32>,
    retry: RetryPolicy)

  // ---- the conversation store ----

  /** A store whose operations either fail without effect or take place as a whole. */
  datatype Store = Store(
    sessions: map<SessionId, seq<Message>>,
    operations: nat,
    fault: nat -> Option<ChatError>)
  {
    function History(id: SessionId): seq<Message> {
      if id in sessions then sessions[id] else []
    }

    function Load(id: SessionId): (Store, Result<seq<Message>, ChatError>) {
      (this.(operations := operations + 1),
       match fault(operations) case Some(e) => Err(e) case None => Ok(History(id)))
    }

    function Append(id: SessionId, messages: seq<Message>): (Store, Option<ChatError>) {
      var tried := this.(operations := operations + 1);
      match fault(operations)
      case Some(e) => (tried, Some(e))
      case None => (tried.(sessions := sessions[id := History(id) + messages]), None)
    }
  }

  // ---- one model round ----

  datatype RoundOutput = RoundOutput(text: string, calls: seq<ToolCall>, stopReason: StopReason, usage: TokenUsage)

  /** Text of the assistant messages of a response. */
  function OutputText(items: seq<OutputItem>): string {
    if items == [] then []
    else (match items[0]
          case MessageItem(m) => if m.role == Assistant then m.content else []
          case CallItem(_) => []) + OutputText(items[1..])
  }

  /** Tool calls of a response, in order. */
  function OutputCalls(items: seq<OutputItem>): seq<ToolCall> {
    if items == [] then []
    else (match items[0]
          case MessageItem(_) => []
          case CallItem(c) => [c]) + OutputCalls(items[1..])
  }

  function Collected(r: ModelResponse): RoundOutput {
    RoundOutput(OutputText(r.output), OutputCalls(r.output), r.stopReason, r.usage)
  }

  /** What `stream_turn` has gathered from the provider events of one round so far. */
  datatype Gathered = Gathered(text: string, calls: map<string, ToolCall>, stopReason: StopReason, usage: TokenUsage)

  const NOTHING := Gathered("", map[], Other, NO_USAGE)

  function InsertCalls(m: map<string, ToolCall>, calls: seq<ToolCall>): map<string, ToolCall>
    decreases |calls|
  {
    if calls == [] then m else InsertCalls(m[calls[0].id := calls[0]], calls[1..])
  }

  function Gather(g: Gathered, e: StreamEvent): Gathered {
    match e
    case TextDelta(d) => g.(text := g.text + d)
    case ToolCallDelta(c) => g.(calls := g.calls[c.id := c])
    case MessageComplete(m) =>
      if m.role == Assistant && g.text == "" then g.(text := m.content) else g
    case ResponseComplete(r) =>
      var content := OutputText(r.output);
      Gathered(if content != "" then content else g.text, InsertCalls(g.calls, OutputCalls(r.output)), r.stopReason, r.usage)
  }

  function Forwarded(e: StreamEvent): seq<ChatEvent> {
    match e
    case TextDelta(d) => [TextChunk(d)]
    case ToolCallDelta(c) => [ToolCallChunk(c)]
    case MessageComplete(m) => if m.role == Assistant then [AssistantMessageComplete(m.content)] else []
    case ResponseComplete(_) => []
  }

  /** The provider events read from one stream: all of them, or those before the first error. */
  datatype Drained = Drained(gathered: Gathered, events: seq<ChatEvent>, error: Option<ProviderError>)

  function Drain(g: Gathered, items: StreamItems): Drained
    decreases |items|
  {
    if items == [] then Drained(g, [], None)
    else match items[0]
      case Err(e) => Drained(g, [], Some(e))
      case Ok(event) =>
        var rest := Drain(Gather(g, event), items[1..]);
        rest.(events := Forwarded(event) + rest.events)
  }

  function Output(g: Gathered): RoundOutput {
    RoundOutput(g.text, Ordered.ByName(g.calls), g.stopReason, g.usage)
  }

  /** One logical model request: the retried provider call and the reading of its answer. */
  datatype Asked = Asked(attempts: nat, hooks: seq<HookEvent>, events: seq<ChatEvent>, answer: Result<RoundOutput, ChatError>)

  function CompleteOutcome(s: Service, calls: nat, r: ModelRequest): nat -> Result<ModelResponse, ProviderError> {
    (attempt: nat) => s.provider.complete(calls + attempt, r)
  }

  function StreamOutcome(s: Service, calls: nat, r: ModelRequest): nat -> Result<StreamItems, ProviderError> {
    (attempt: nat) => s.provider.stream(calls + attempt, r)
  }

  function Ask(s: Service, streaming: bool, calls: nat, r: ModelRequest): Asked
    requires s.retry.Valid()
  {
    if streaming then
      var outcome := StreamOutcome(s, calls, r);
      var n := StopAttempt(s.retry, outcome, 1);
      match outcome(n)
      case Err(e) => Asked(n, HookTrace(s.retry, outcome), [], Err(OfProvider(e, ProviderPhase)))
      case Ok(items) =>
        var d := Drain(NOTHING, items);
        Asked(n, HookTrace(s.retry, outcome), d.events,
              if d.error.Some? then Err(OfProvider(d.error.value, Streaming)) else Ok(Output(d.gathered)))
    else
      var outcome := CompleteOutcome(s, calls, r);
      var n := StopAttempt(s.retry, outcome, 1);
      Asked(n, HookTrace(s.retry, outcome), [],
            match outcome(n)
            case Err(e) => Err(OfProvider(e, ProviderPhase))
            case Ok(response) => Ok(Collected(response)))
  }

  // ---- observable actions ----

  datatype Act =
    | Hooked(hook: HookEvent)
    | Emitted(event: ChatEvent)
    | Executed(call: ToolCall)
    | Stored(messages: seq<Message>)

  function Hooks(hooks: seq<HookEvent>): (acts: seq<Act>)
    ensures |acts| == |hooks| && forall i :: 0 <= i < |acts| ==> acts[i] == Hooked(hooks[i])
  {
    seq(|hooks|, i requires 0 <= i < |hooks| => Hooked(hooks[i]))
  }

  function Emits(events: seq<ChatEvent>): (acts: seq<Act>)
    ensures |acts| == |events| && forall i :: 0 <= i < |acts| ==> acts[i] == Emitted(events[i])
  {
    seq(|events|, i requires 0 <= i < |events| => Emitted(events[i]))
  }

  /** What the consumer of a stream sees of a log. */
  function EventsOf(log: seq<Act>): seq<ChatEvent> {
    if log == [] then [] else Visible(log[0]) + EventsOf(log[1..])
  }

  function Visible(act: Act): seq<ChatEvent> {
    if act.Emitted? then [act.event] else []
  }

  lemma EventsOfNothing()
    ensures EventsOf([]) == []
  {
  }

  lemma {:induction false} EventsOfAppend(a: seq<Act>, b: seq<Act>)
    ensures EventsOf(a + b) == EventsOf(a) + EventsOf(b)
  {
    if a == [] {
      assert a + b == b;
    } else {
      hide Visible;
      assert (a + b)[1..] == a[1..] + b;
      EventsOfAppend(a[1..], b);
      var head, middle, tail := Visible(a[0]), EventsOf(a[1..]), EventsOf(b);
      assert head + (middle + tail) == (head + middle) + tail;
    }
  }

  lemma {:induction false} EventsOfHooks(hooks: seq<HookEvent>)
    ensures EventsOf(Hooks(hooks)) == []
  {
    if hooks != [] {
      assert Hooks(hooks)[1..] == Hooks(hooks[1..]);
      EventsOfHooks(hooks[1..]);
    }
  }

  lemma {:induction false} EventsOfEmits(events: seq<ChatEvent>)
    ensures EventsOf(Emits(events)) == events
  {
    if events != [] {
      assert Emits(events)[1..] == Emits(events[1..]);
      EventsOfEmits(events[1..]);
    }
  }

  // ---- tool execution within one round ----

  datatype ToolRun = ToolRun(results: seq<ToolResult>, log: seq<Act>, executions: nat, error: Option<ChatError>)

  function ToolStartActs(streaming: bool, call: ToolCall): seq<Act> {
    if streaming then [Emitted(ToolExecutionStarted(call)), Executed(call)] else [Executed(call)]
  }

  /** A completed execution. */
  function ToolActs(streaming: bool, call: ToolCall): seq<Act> {
    ToolStartActs(streaming, call) + if streaming then [Emitted(ToolExecutionFinished(call))] else []
  }

  /** Executes the calls in order and stops at the first failure. */
  function RunTools(tools: ToolRuntime, id: SessionId, streaming: bool, calls: seq<ToolCall>, execs: nat): ToolRun {
    if calls == [] then ToolRun([], [], 0, None)
    else
      match tools(execs, calls[0], id)
      case Err(e) => ToolRun([], ToolStartActs(streaming, calls[0]), 1, Some(OfTool(e)))
      case Ok(result) =>
        var rest := RunTools(tools, id, streaming, calls[1..], execs + 1);
        ToolRun([result] + rest.results, ToolActs(streaming, calls[0]) + rest.log, 1 + rest.executions, rest.error)
  }

  // ---- one turn ----

  /** A turn's fixed parameters once `prepare_turn` succeeded. */
  datatype Setup = Setup(service: Service, session: ChatSession, temperature: Option<real>, maxTokens: Option<u32>, streaming: bool)

  datatype Round = Round(request: ModelRequest, answer: Result<RoundOutput, ChatError>, results: seq<ToolResult>, firstExec: nat)

  datatype Finish = Finish(persisted: seq<Message>, output: RoundOutput, limitReached: bool)

  datatype TurnEnd = TurnEnd(calls: nat, execs: nat, rounds: seq<Round>, log: seq<Act>, outcome: Result<Finish, ChatError>)
  {
    /** The same end, reached after earlier rounds and actions. */
    function After(earlierRounds: seq<Round>, earlierLog: seq<Act>): TurnEnd {
      this.(rounds := earlierRounds + rounds, log := earlierLog + log)
    }
  }

  function RequestOf(s: Setup, conversation: seq<Message>, results: seq<ToolResult>): ModelRequest {
    ModelRequest(s.session.model, conversation, s.temperature, s.maxTokens, s.streaming, results)
  }

  function BuildRequest(s: Setup, conversation: seq<Message>, results: seq<ToolResult>): Result<ModelRequest, ChatError> {
    var r := RequestOf(s, conversation, results);
    match Validate(r)
    case None => Ok(r)
    case Some(e) => Err(OfProvider(e, RequestValidation))
  }

  /** The rounds of a turn from a given point on; `trips` tool rounds are already behind it. */
  function Turn(s: Setup, conversation: seq<Message>, persisted: seq<Message>, trips: nat, results: seq<ToolResult>, calls: nat, execs: nat): TurnEnd
    requires s.service.retry.Valid()
    decreases if trips < s.service.maxToolRoundTrips then s.service.maxToolRoundTrips - trips else 0, 1
  {
    match BuildRequest(s, conversation, results)
    case Err(e) => TurnEnd(calls, execs, [], [], Err(e))
    case Ok(request) =>
      var asked := Ask(s.service, s.streaming, calls, request);
      var log := Hooks(asked.hooks) + Emits(asked.events);
      match asked.answer
      case Err(e) => TurnEnd(calls + asked.attempts, execs, [Round(request, Err(e), [], execs)], log, Err(e))
      case Ok(output) => Proceed(s, conversation, persisted, trips, request, output, calls + asked.attempts, execs).After([], log)
  }

  predicate RunsTools(s: Setup, output: RoundOutput, trips: nat) {
    s.service.tools.Some? && output.calls != [] && trips < s.service.maxToolRoundTrips
  }

  function Answer(output: RoundOutput): Message {
    Message(Assistant, output.text)
  }

  /** The rest of a turn once the answer to `request` is in. */
  function Proceed(s: Setup, conversation: seq<Message>, persisted: seq<Message>, trips: nat, request: ModelRequest, output: RoundOutput, calls: nat, execs: nat): TurnEnd
    requires s.service.retry.Valid()
    decreases if trips < s.service.maxToolRoundTrips then s.service.maxToolRoundTrips - trips else 0, 0
  {
    var answer := Answer(output);
    if RunsTools(s, output, trips) then
      var ran := RunTools(s.service.tools.value, s.session.id, s.streaming, output.calls, execs);
      var round := Round(request, Ok(output), ran.results, execs);
      match ran.error
      case Some(e) => TurnEnd(calls, execs + ran.executions, [round], ran.log, Err(e))
      case None =>
        Turn(s, conversation + [answer], persisted + [answer], trips + 1, ran.results, calls, execs + ran.executions)
          .After([round], ran.log)
    else
      var limit := s.service.tools.Some? && output.calls != [];
      TurnEnd(calls, execs, [Round(request, Ok(output), [], execs)], LimitWarning(s, output, limit),
              Ok(Finish(persisted + [answer], output, limit)))
  }

  function LimitWarning(s: Setup, output: RoundOutput, limit: bool): seq<Act> {
    if limit && s.streaming then
      [Emitted(ToolRoundLimitReached(s.service.maxToolRoundTrips, |output.calls|))]
    else
      []
  }

  // The equations of the two functions above, one per case.

  lemma TurnRejected(s: Setup, conversation: seq<Message>, persisted: seq<Message>, trips: nat, results: seq<ToolResult>, calls: nat, execs: nat)
    requires s.service.retry.Valid() && BuildRequest(s, conversation, results).Err?
    ensures Turn(s, conversation, persisted, trips, results, calls, execs)
         == TurnEnd(calls, execs, [], [], Err(BuildRequest(s, conversation, results).error))
  {
  }

  lemma TurnAsks(s: Setup, conversation: seq<Message>, persisted: seq<Message>, trips: nat, results: seq<ToolResult>, calls: nat, execs: nat,
                 request: ModelRequest, asked: Asked)
    requires s.service.retry.Valid() && BuildRequest(s, conversation, results) == Ok(request)
    requires asked == Ask(s.service, s.streaming, calls, request)
    ensures var log, end := Hooks(asked.hooks) + Emits(asked.events), Turn(s, conversation, persisted, trips, results, calls, execs);
      if asked.answer.Err? then
        end == TurnEnd(calls + asked.attempts, execs, [Round(request, asked.answer, [], execs)], log, Err(asked.answer.error))
      else
        end == Proceed(s, conversation, persisted, trips, request, asked.answer.value, calls + asked.attempts, execs).After([], log)
  {
    hide Ask, Proceed, Hooks, Emits;
  }

  /** A streaming request whose acquisition failed. */
  lemma AskNotAcquired(s: Service, calls: nat, r: ModelRequest, n: nat, e: ProviderError)
    requires s.retry.Valid() && n == StopAttempt(s.retry, StreamOutcome(s, calls, r), 1) && StreamOutcome(s, calls, r)(n) == Err(e)
    ensures var asked := Ask(s, true, calls, r);
      asked.attempts == n && asked.events == [] && asked.answer == Err(OfProvider(e, ProviderPhase))
  {
    hide Drain, HookTrace, StopAttempt;
  }

  /** A streaming request whose stream was read. */
  lemma AskDrained(s: Service, calls: nat, r: ModelRequest, n: nat, items: StreamItems)
    requires s.retry.Valid() && n == StopAttempt(s.retry, StreamOutcome(s, calls, r), 1) && StreamOutcome(s, calls, r)(n) == Ok(items)
    ensures var asked, d := Ask(s, true, calls, r), Drain(NOTHING, items);
      && asked.attempts == n && asked.events == d.events
      && asked.answer == if d.error.Some? then Err(OfProvider(d.error.value, Streaming)) else Ok(Output(d.gathered))
  {
    hide Drain, HookTrace, StopAttempt, Output;
  }

  lemma ProceedStops(s: Setup, conversation: seq<Message>, persisted: seq<Message>, trips: nat, request: ModelRequest, output: RoundOutput, calls: nat, execs: nat)
    requires s.service.retry.Valid() && !RunsTools(s, output, trips)
    ensures var limit := s.service.tools.Some? && output.calls != [];
      Proceed(s, conversation, persisted, trips, request, output, calls, execs)
        == TurnEnd(calls, execs, [Round(request, Ok(output), [], execs)], LimitWarning(s, output, limit),
                   Ok(Finish(persisted + [Answer(output)], output, limit)))
  {
  }

  lemma ProceedRunsTools(s: Setup, conversation: seq<Message>, persisted: seq<Message>, trips: nat, request: ModelRequest, output: RoundOutput, calls: nat, execs: nat,
                         ran: ToolRun)
    requires s.service.retry.Valid() && RunsTools(s, output, trips)
    requires ran == RunTools(s.service.tools.value, s.session.id, s.streaming, output.calls, execs)
    ensures var round, end := Round(request, Ok(output), ran.results, execs), Proceed(s, conversation, persisted, trips, request, output, calls, execs);
      if ran.error.Some? then
        end == TurnEnd(calls, execs + ran.executions, [round], ran.log, Err(ran.error.value))
      else
        end == Turn(s, conversation + [Answer(output)], persisted + [Answer(output)], trips + 1, ran.results, calls, execs + ran.executions)
               .After([round], ran.log)
  {
    hide Turn, RunTools;
  }

  lemma AfterAfter(end: TurnEnd, r1: seq<Round>, l1: seq<Act>, r2: seq<Round>, l2: seq<Act>)
    ensures end.After(r2, l2).After(r1, l1) == end.After(r1 + r2, l1 + l2)
  {
    assert r1 + (r2 + end.rounds) == (r1 + r2) + end.rounds;
    assert l1 + (l2 + end.log) == (l1 + l2) + end.log;
  }

  function ResultOf(s: Setup, f: Finish): ChatTurnResult {
    ChatTurnResult(s.session.id, f.output.text, f.output.calls, f.output.stopReason, f.output.usage, f.limitReached)
  }

  /** `prepare_turn` after the history was loaded: the messages that precede the user's. */
  function Preamble(session: ChatSession, history: seq<Message>): seq<Message> {
    (if session.systemPrompt.Some? then [Message(System, session.systemPrompt.value)] else []) + history
  }

  /** What `prepare_turn` hands to the rounds. */
  datatype TurnContext = TurnContext(session: ChatSession, userMessage: Message, conversation: seq<Message>, temperature: Option<real>, maxTokens: Option<u32>)

  datatype World = World(store: Store, calls: nat, execs: nat)

  datatype TurnReport = TurnReport(world: World, rounds: seq<Round>, log: seq<Act>, outcome: Result<ChatTurnResult, ChatError>)

  function SetupOf(service: Service, request: ChatTurnRequest, streaming: bool): Setup {
    Setup(service, request.session, request.temperature.Or(service.defaultTemperature), request.maxTokens.Or(service.defaultMaxTokens), streaming)
  }

  function UserMessage(request: ChatTurnRequest): Message {
    Message(User, request.userInput)
  }

  function WithPhase(e: ChatError, phase: ChatErrorPhase): ChatError {
    e.(phase := Some(phase))
  }

  /** A whole turn: `run_turn`, or `stream_turn` with its stream read to the end. */
  function WholeTurn(service: Service, request: ChatTurnRequest, streaming: bool, w: World): TurnReport
    requires service.retry.Valid()
  {
    if !streaming && request.stream then
      TurnReport(w, [], [], Err(InvalidTurn("use stream_turn for streaming requests")))
    else if Text.IsBlank(request.userInput) then
      TurnReport(w, [], [], Err(InvalidTurn("user_input must not be empty")))
    else
      var (store, loaded) := w.store.Load(request.session.id);
      match loaded
      case Err(e) => TurnReport(w.(store := store), [], [], Err(WithPhase(e, Storage)))
      case Ok(history) =>
        var s := SetupOf(service, request, streaming);
        var user := UserMessage(request);
        var end := Turn(s, Preamble(request.session, history) + [user], [user], 0, [], w.calls, w.execs);
        Concluded(s, store, end)
  }

  /** The end of a turn: one append of the persisted messages, then the completion event. */
  function Concluded(s: Setup, store: Store, end: TurnEnd): TurnReport {
    match end.outcome
    case Err(e) => TurnReport(World(store, end.calls, end.execs), end.rounds, end.log, Err(e))
    case Ok(finish) =>
      var (store', fault) := store.Append(s.session.id, finish.persisted);
      var world := World(store', end.calls, end.execs);
      match fault
      case Some(e) => TurnReport(world, end.rounds, end.log, Err(WithPhase(e, Storage)))
      case None =>
        var result := ResultOf(s, finish);
        var done := if s.streaming then [Emitted(TurnComplete(result))] else [];
        TurnReport(world, end.rounds, end.log + [Stored(finish.persisted)] + done, Ok(result))
  }
}
