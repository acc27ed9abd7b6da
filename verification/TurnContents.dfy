/**
 What a turn sends, stores, reports and fails with, field by field and by position, in both forms. These laws speak of the
 request, the stored history, the provider's answers and the errors themselves, not of how a turn puts them together.
 */
module TurnContents {
  import opened Wrappers
  import opened ProviderModel
  import opened Retry
  import opened ChatTurn
  import opened TurnLaws
  import opened TurnEquivalence
  import Ordered
  import Text

  // ---- what is sent, stored and reported ----

  lemma {:induction false} AnswersAt(rounds: seq<Round>, i: nat)
    requires i <= |rounds| && forall j :: 0 <= j < i ==> rounds[j].answer.Ok?
    ensures |Answers(rounds[..i])| == i
    ensures forall j :: 0 <= j < i ==> Answers(rounds[..i])[j] == Message(Assistant, rounds[j].answer.value.text)
    decreases i
  {
    if i > 0 {
      assert rounds[..i][1..] == rounds[1..][..i - 1];
      AnswersAt(rounds[1..], i - 1);
      assert forall j :: 0 < j < i ==> rounds[j] == rounds[1..][j - 1];
    }
  }

  /** The messages before any answer: the system prompt if there is one, the stored history, the user's input. */
  ghost predicate IsOpening(opening: seq<Message>, request: ChatTurnRequest, stored: map<SessionId, seq<Message>>) {
    var prompted := if request.session.systemPrompt.Some? then 1 else 0;
    var kept := if request.session.id in stored then |stored[request.session.id]| else 0;
    && |opening| == prompted + kept + 1
    && (prompted == 1 ==> opening[0] == Message(System, request.session.systemPrompt.value))
    && (forall k :: 0 <= k < kept ==> opening[prompted + k] == stored[request.session.id][k])
    && opening[prompted + kept] == Message(User, request.userInput)
  }

  /** Request `i` of a turn: the opening, the answers so far, the results of the round before it and the options of the turn. */
  ghost predicate IsSent(r: ModelRequest, rounds: seq<Round>, i: nat, opening: seq<Message>, request: ChatTurnRequest, service: Service, streaming: bool)
    requires i < |rounds|
  {
    && |r.messages| == |opening| + i
    && r.messages[..|opening|] == opening
    && (forall j :: 0 <= j < i ==> rounds[j].answer.Ok? && r.messages[|opening| + j] == Message(Assistant, rounds[j].answer.value.text))
    && r.toolResults == (if i == 0 then [] else rounds[i - 1].results)
    && r.model == request.session.model
    && r.temperature == (if request.temperature.Some? then request.temperature else service.defaultTemperature)
    && r.maxTokens == (if request.maxTokens.Some? then request.maxTokens else service.defaultMaxTokens)
    && r.stream == streaming
  }

  /** Every request of a turn, whatever becomes of it, is what the session, the stored history and the earlier answers make it. */
  lemma RequestContents(service: Service, request: ChatTurnRequest, streaming: bool, w: World) returns (opening: seq<Message>)
    requires service.retry.Valid()
    ensures IsOpening(opening, request, w.store.sessions)
    ensures var rounds := WholeTurn(service, request, streaming, w).rounds;
      forall i :: 0 <= i < |rounds| ==> IsSent(rounds[i].request, rounds, i, opening, request, service, streaming)
  {
    hide WholeTurn, Text.IsBlank, FullyExecuted, Preamble, Answers, SentInTurn, IsSent, IsOpening;
    var rounds, s := WholeTurn(service, request, streaming, w).rounds, SetupOf(service, request, streaming);
    opening := Preamble(request.session, w.store.History(request.session.id)) + [UserMessage(request)];
    Opens(request, w);
    WholeTurnLaw(service, request, streaming, w);
    forall i | 0 <= i < |rounds| ensures IsSent(rounds[i].request, rounds, i, opening, request, service, streaming) {
      forall j | 0 <= j < i ensures rounds[j].answer.Ok? {
        AnsweredBefore(s, rounds, j);
      }
      SentContents(service, request, streaming, opening, rounds, i);
    }
  }

  lemma Opens(request: ChatTurnRequest, w: World)
    ensures IsOpening(Preamble(request.session, w.store.History(request.session.id)) + [UserMessage(request)], request, w.store.sessions)
  {
  }

  lemma SentContents(service: Service, request: ChatTurnRequest, streaming: bool, opening: seq<Message>, rounds: seq<Round>, i: nat)
    requires i < |rounds| && SentInTurn(SetupOf(service, request, streaming), opening, [], rounds, i)
    requires forall j :: 0 <= j < i ==> rounds[j].answer.Ok?
    ensures IsSent(rounds[i].request, rounds, i, opening, request, service, streaming)
  {
    hide Answers;
    AnswersAt(rounds, i);
    var answers := Answers(rounds[..i]);
    assert rounds[i].request.messages == opening + answers;
    assert forall j :: 0 <= j < i ==> (opening + answers)[|opening| + j] == answers[j];
  }

  lemma AnsweredBefore(s: Setup, rounds: seq<Round>, j: nat)
    requires j < |rounds| - 1 && forall i :: 0 <= i < |rounds| - 1 ==> FullyExecuted(s, rounds[i])
    ensures rounds[j].answer.Ok?
  {
    assert FullyExecuted(s, rounds[j]);
  }

  /** A successful turn adds the user's message and one message per answer behind the stored history, and reports its last answer. */
  lemma StoredContents(service: Service, request: ChatTurnRequest, streaming: bool, w: World)
    requires service.retry.Valid() && WholeTurn(service, request, streaming, w).outcome.Ok?
    ensures var report, id := WholeTurn(service, request, streaming, w), request.session.id;
      var before, n := if id in w.store.sessions then w.store.sessions[id] else [], |report.rounds|;
      && id in report.world.store.sessions
      && var after := report.world.store.sessions[id];
      && n > 0 && |after| == |before| + 1 + n && after[..|before|] == before
      && after[|before|] == Message(User, request.userInput)
      && (forall j :: 0 <= j < n ==> report.rounds[j].answer.Ok? && after[|before| + 1 + j] == Message(Assistant, report.rounds[j].answer.value.text))
      && var last, result := report.rounds[n - 1].answer.value, report.outcome.value;
      && result.sessionId == id
      && result.assistantMessage == last.text && result.toolCalls == last.calls
      && result.stopReason == last.stopReason && result.usage == last.usage
  {
    hide WholeTurn, Text.IsBlank, FullyExecuted, SentInTurn;
    var report := WholeTurn(service, request, streaming, w);
    WholeTurnLaw(service, request, streaming, w);
    var n := |report.rounds|;
    forall j | 0 <= j < n ensures report.rounds[j].answer.Ok? {
      if j < n - 1 {
        AnsweredBefore(SetupOf(service, request, streaming), report.rounds, j);
      }
    }
    AnswersAt(report.rounds, n);
    assert report.rounds[..n] == report.rounds;
    ReportedResult(service, request, streaming, w);
  }

  lemma ReportedResult(service: Service, request: ChatTurnRequest, streaming: bool, w: World)
    requires service.retry.Valid() && WholeTurn(service, request, streaming, w).outcome.Ok?
    ensures var report := WholeTurn(service, request, streaming, w);
      && report.rounds != [] && report.rounds[|report.rounds| - 1].answer.Ok?
      && var last, result := report.rounds[|report.rounds| - 1].answer.value, report.outcome.value;
      result.sessionId == request.session.id && result.stopReason == last.stopReason && result.usage == last.usage
  {
    hide Turn, Text.IsBlank, Chained, Answers;
    var (store, loaded) := w.store.Load(request.session.id);
    var s, user := SetupOf(service, request, streaming), UserMessage(request);
    RoundsLaw(s, Preamble(request.session, w.store.History(request.session.id)) + [user], [user], 0, [], w.calls, w.execs);
  }

  lemma {:induction false} LimitFromRounds(s: Setup, conversation: seq<Message>, persisted: seq<Message>, trips: nat, results: seq<ToolResult>, calls: nat, execs: nat)
    requires s.service.retry.Valid() && trips <= s.service.maxToolRoundTrips
    ensures var end := Turn(s, conversation, persisted, trips, results, calls, execs);
      end.outcome.Ok? && end.outcome.value.limitReached ==> trips + |end.rounds| == s.service.maxToolRoundTrips + 1
    decreases s.service.maxToolRoundTrips - trips
  {
    hide Turn, Proceed, RunTools, Ask, Hooks, Emits, Validate, BuildRequest, Answer;
    var built := BuildRequest(s, conversation, results);
    if built.Err? {
      TurnRejected(s, conversation, persisted, trips, results, calls, execs);
    } else {
      var asked := Ask(s.service, s.streaming, calls, built.value);
      TurnAsks(s, conversation, persisted, trips, results, calls, execs, built.value, asked);
      if asked.answer.Ok? {
        var output, calls' := asked.answer.value, calls + asked.attempts;
        if !RunsTools(s, output, trips) {
          ProceedStops(s, conversation, persisted, trips, built.value, output, calls', execs);
        } else {
          var ran := RunTools(s.service.tools.value, s.session.id, s.streaming, output.calls, execs);
          ProceedRunsTools(s, conversation, persisted, trips, built.value, output, calls', execs, ran);
          if ran.error == None {
            LimitFromRounds(s, conversation + [Answer(output)], persisted + [Answer(output)], trips + 1, ran.results, calls', execs + ran.executions);
          }
        }
      }
    }
  }

  /** Tool calls are left unexecuted only when every allowed round trip was made, and then the result says so. */
  lemma LimitUsesAllTrips(service: Service, request: ChatTurnRequest, streaming: bool, w: World)
    requires service.retry.Valid() && WholeTurn(service, request, streaming, w).outcome.Ok?
    ensures var report := WholeTurn(service, request, streaming, w);
      && (report.outcome.value.toolRoundLimitReached ==> |report.rounds| == service.maxToolRoundTrips + 1)
      && (service.tools.Some? && |report.rounds| <= service.maxToolRoundTrips ==> report.outcome.value.toolCalls == [])
  {
    hide Turn, Text.IsBlank, Chained, Answers;
    WholeTurnLaw(service, request, streaming, w);
    LimitFromRounds(SetupOf(service, request, streaming), Preamble(request.session, w.store.History(request.session.id)) + [UserMessage(request)],
                    [UserMessage(request)], 0, [], w.calls, w.execs);
  }

  // ---- what a response says ----

  /** The text of an output is that of its assistant messages, its calls are its call items, both in order. */
  lemma {:induction false} OutputAppend(a: seq<OutputItem>, b: seq<OutputItem>)
    ensures OutputText(a + b) == OutputText(a) + OutputText(b)
    ensures OutputCalls(a + b) == OutputCalls(a) + OutputCalls(b)
  {
    if a == [] {
      assert a + b == b;
    } else {
      assert (a + b)[1..] == a[1..] + b;
      OutputAppend(a[1..], b);
      hide OutputText, OutputCalls;
      OutputCons(a);
      OutputCons(a + b);
      var text, calls := OutputText(a[..1]), OutputCalls(a[..1]);
      assert a[..1] == (a + b)[..1];
      assert text + (OutputText(a[1..]) + OutputText(b)) == text + OutputText(a[1..]) + OutputText(b);
      assert calls + (OutputCalls(a[1..]) + OutputCalls(b)) == calls + OutputCalls(a[1..]) + OutputCalls(b);
    }
  }

  lemma {:induction false} OutputCons(items: seq<OutputItem>)
    requires items != []
    ensures OutputText(items) == OutputText(items[..1]) + OutputText(items[1..])
    ensures OutputCalls(items) == OutputCalls(items[..1]) + OutputCalls(items[1..])
  {
    var one, rest := items[..1], items[1..];
    assert one[1..] == [] && one[0] == items[0];
    var text, calls := OutputText(one), OutputCalls(one);
    assert text + "" == text && calls + [] == calls;
  }

  lemma OutputOfOne(item: OutputItem)
    ensures item.MessageItem? && item.message.role == Assistant ==> OutputText([item]) == item.message.content
    ensures item.MessageItem? && item.message.role != Assistant ==> OutputText([item]) == ""
    ensures item.CallItem? ==> OutputText([item]) == "" && OutputCalls([item]) == [item.call]
    ensures item.MessageItem? ==> OutputCalls([item]) == []
    ensures OutputText([]) == "" && OutputCalls([]) == []
  {
    assert [item][1..] == [];
  }

  // ---- what is gathered from a stream ----

  /** The event brings text: a delta, or a complete assistant message. */
  predicate BringsText(e: StreamEvent) {
    (e.TextDelta? && e.delta != "") || (e.MessageComplete? && e.message.role == Assistant && e.message.content != "")
  }

  function Brought(e: StreamEvent): string {
    if e.TextDelta? then e.delta else if e.MessageComplete? then e.message.content else ""
  }

  function DeltaTexts(items: StreamItems): string {
    if items == [] then "" else (if items[0].Ok? && items[0].value.TextDelta? then items[0].value.delta else "") + DeltaTexts(items[1..])
  }

  lemma {:induction false} GatheredBehind(g: Gathered, items: StreamItems)
    requires Deltas(items) && g.text != ""
    ensures Drain(g, items).gathered.text == g.text + DeltaTexts(items)
    decreases |items|
  {
    if items == [] {
      assert g.text + "" == g.text;
    } else {
      var next, head, tail := Gather(g, items[0].value), (if items[0].value.TextDelta? then items[0].value.delta else ""), DeltaTexts(items[1..]);
      GatheredBehind(next, items[1..]);
      assert g.text + (head + tail) == (g.text + head) + tail;
      assert g.text + "" == g.text;
    }
  }

  /** Before the final response the text is that of the first event that brings any, followed by the deltas after it. */
  lemma {:induction false} GatheredText(g: Gathered, items: StreamItems, k: nat)
    requires Deltas(items) && g.text == "" && k <= |items|
    requires forall j :: 0 <= j < k ==> !BringsText(items[j].value)
    requires k < |items| ==> BringsText(items[k].value)
    ensures Drain(g, items).gathered.text == if k < |items| then Brought(items[k].value) + DeltaTexts(items[k + 1..]) else ""
    decreases |items|
  {
    if items != [] {
      var next := Gather(g, items[0].value);
      assert forall j :: 0 <= j < |items| - 1 ==> items[1..][j] == items[j + 1];
      if k == 0 {
        assert next.text == Brought(items[0].value) by { assert "" + Brought(items[0].value) == Brought(items[0].value); }
        GatheredBehind(next, items[1..]);
      } else {
        assert next.text == "";
        GatheredText(next, items[1..], k - 1);
        if k < |items| {
          assert items[1..][k..] == items[k + 1..];
        }
      }
    }
  }

  /** Before the final response an id holds the call of its last delta. */
  lemma {:induction false} GatheredCall(g: Gathered, items: StreamItems, k: nat)
    requires Deltas(items) && k < |items| && items[k].value.ToolCallDelta?
    requires forall j :: k < j < |items| && items[j].value.ToolCallDelta? ==> items[j].value.call.id != items[k].value.call.id
    ensures var call := items[k].value.call;
      call.id in Drain(g, items).gathered.calls && Drain(g, items).gathered.calls[call.id] == call
    decreases |items|
  {
    var next := Gather(g, items[0].value);
    assert forall j :: 0 <= j < |items| - 1 ==> items[1..][j] == items[j + 1];
    if k > 0 {
      GatheredCall(next, items[1..], k - 1);
    } else {
      UntouchedCall(next, items[1..], items[0].value.call.id);
    }
  }

  lemma {:induction false} UntouchedCall(g: Gathered, items: StreamItems, id: string)
    requires Deltas(items) && id in g.calls
    requires forall j :: 0 <= j < |items| && items[j].value.ToolCallDelta? ==> items[j].value.call.id != id
    ensures id in Drain(g, items).gathered.calls && Drain(g, items).gathered.calls[id] == g.calls[id]
    decreases |items|
  {
    if items != [] {
      assert forall j :: 0 <= j < |items| - 1 ==> items[1..][j] == items[j + 1];
      assert items[0].value.ToolCallDelta? ==> items[0].value.call.id != id;
      UntouchedCall(Gather(g, items[0].value), items[1..], id);
    }
  }

  lemma {:induction false} NoResponseYet(g: Gathered, items: StreamItems)
    requires Deltas(items)
    ensures Drain(g, items).gathered.stopReason == g.stopReason && Drain(g, items).gathered.usage == g.usage
    decreases |items|
  {
    if items != [] {
      NoResponseYet(Gather(g, items[0].value), items[1..]);
    }
  }

  /** The final response has the last word on text, if it has any, on its calls, on the stop reason and on the usage. */
  lemma FinalResponseWins(g: Gathered, response: ModelResponse)
    ensures var after := Gather(g, ResponseComplete(response));
      && after.text == (if OutputText(response.output) != "" then OutputText(response.output) else g.text)
      && after.stopReason == response.stopReason && after.usage == response.usage
      && (forall id :: id in g.calls && id !in CallIds(OutputCalls(response.output)) ==> id in after.calls && after.calls[id] == g.calls[id])
      && after.calls.Keys == g.calls.Keys + CallIds(OutputCalls(response.output))
  {
    hide OutputText, OutputCalls, InsertCalls;
    InsertCallsKeys(g.calls, OutputCalls(response.output));
  }

  /** Of several calls with one id the last one is kept. */
  lemma {:induction false} LastInserted(m: map<string, ToolCall>, calls: seq<ToolCall>, k: nat)
    requires k < |calls| && forall j :: k < j < |calls| ==> calls[j].id != calls[k].id
    ensures calls[k].id in InsertCalls(m, calls) && InsertCalls(m, calls)[calls[k].id] == calls[k]
    decreases |calls|
  {
    var next := m[calls[0].id := calls[0]];
    assert forall j :: 0 <= j < |calls| - 1 ==> calls[1..][j] == calls[j + 1];
    if k > 0 {
      LastInserted(next, calls[1..], k - 1);
    } else {
      InsertCallsKeys(next, calls[1..]);
      assert calls[0].id !in CallIds(calls[1..]);
    }
  }

  // ---- what is forwarded ----

  /** The provider events a consumer is to see. */
  predicate IsShown(e: StreamEvent) {
    e.TextDelta? || e.ToolCallDelta? || (e.MessageComplete? && e.message.role == Assistant)
  }

  /** A chat event is the provider event it forwards. */
  predicate Shows(e: ChatEvent, p: StreamEvent) {
    || (p.TextDelta? && e == TextChunk(p.delta))
    || (p.ToolCallDelta? && e == ToolCallChunk(p.call))
    || (p.MessageComplete? && e == AssistantMessageComplete(p.message.content))
  }

  /** The shown events of a stream, up to its first error. */
  function Shown(items: StreamItems): seq<StreamEvent> {
    if items == [] || items[0].Err? then []
    else (if IsShown(items[0].value) then [items[0].value] else []) + Shown(items[1..])
  }

  /** The forwarded events are the stream's own, all of them and in order, up to its first error, which ends the reading. */
  lemma {:induction false} ForwardedInOrder(g: Gathered, items: StreamItems)
    ensures |Drain(g, items).events| == |Shown(items)|
    ensures forall i :: 0 <= i < |Shown(items)| ==> Shows(Drain(g, items).events[i], Shown(items)[i])
    decreases |items|
  {
    if items != [] && items[0].Ok? {
      hide Gather, Forwarded, Shows, IsShown;
      var next := Gather(g, items[0].value);
      ForwardedInOrder(next, items[1..]);
      ForwardedOne(items[0].value);
      var first, rest := Forwarded(items[0].value), Drain(next, items[1..]).events;
      var shown, later := (if IsShown(items[0].value) then [items[0].value] else []), Shown(items[1..]);
      assert Drain(g, items).events == first + rest && Shown(items) == shown + later;
      forall i | 0 <= i < |shown + later| ensures Shows((first + rest)[i], (shown + later)[i]) {
        if i < |shown| {
          assert (shown + later)[i] == shown[i] && (first + rest)[i] == first[i];
        } else {
          assert (shown + later)[i] == later[i - |shown|] && (first + rest)[i] == rest[i - |first|];
        }
      }
    }
  }

  lemma ForwardedOne(e: StreamEvent)
    ensures |Forwarded(e)| == if IsShown(e) then 1 else 0
    ensures IsShown(e) ==> Shows(Forwarded(e)[0], e)
  {
  }

  lemma {:induction false} ReadUpToError(g: Gathered, items: StreamItems, k: nat)
    requires k <= |items| && (forall j :: 0 <= j < k ==> items[j].Ok?) && (k < |items| ==> items[k].Err?)
    ensures Drain(g, items).error == if k < |items| then Some(items[k].error) else None
    decreases |items|
  {
    if k > 0 {
      assert forall j :: 0 <= j < |items| - 1 ==> items[1..][j] == items[j + 1];
      ReadUpToError(Gather(g, items[0].value), items[1..], k - 1);
    }
  }

  // ---- one request ----

  /** A provider error as a chat reports it. */
  predicate Reports(e: ChatError, p: ProviderError, phase: ChatErrorPhase) {
    e == ChatError(ProviderFault, p.message, p.retryable, Some(phase), Some(FromProviderKind(p.kind)))
  }

  /** An attempt that is followed by another one. */
  predicate Retried<T>(policy: RetryPolicy, attempt: nat, outcome: Result<T, ProviderError>) {
    outcome.Err? && outcome.error.retryable && attempt < policy.maxAttempts
  }

  function CompletedAt(s: Service, calls: nat, r: ModelRequest, attempt: nat): Result<ModelResponse, ProviderError> {
    s.provider.complete(calls + attempt, r)
  }

  function OpenedAt(s: Service, calls: nat, r: ModelRequest, attempt: nat): Result<StreamItems, ProviderError> {
    s.provider.stream(calls + attempt, r)
  }

  /**
   A completed request is answered by attempt `n`: the earlier ones failed retryably below the limit, and it either
   succeeded or failed for good. Its output or its error is what the round goes on with.
   */
  lemma CompletedAnswer(s: Service, calls: nat, r: ModelRequest)
    requires s.retry.Valid()
    ensures var asked := Ask(s, false, calls, r);
      var n, final := asked.attempts, CompletedAt(s, calls, r, asked.attempts);
      && n >= 1
      && (forall i :: 1 <= i < n ==> Retried(s.retry, i, CompletedAt(s, calls, r, i)))
      && (final.Err? ==> !final.error.retryable || n >= s.retry.maxAttempts)
      && (final.Err? ==> asked.answer.Err? && Reports(asked.answer.error, final.error, ProviderPhase))
      && (final.Ok? ==>
            var o := final.value;
            asked.answer == Ok(RoundOutput(OutputText(o.output), OutputCalls(o.output), o.stopReason, o.usage)))
  {
    hide HookTrace, OutputText, OutputCalls;
    var outcome := CompleteOutcome(s, calls, r);
    var n := StopAttempt(s.retry, outcome, 1);
    assert forall i :: 1 <= i <= n ==> outcome(i) == CompletedAt(s, calls, r, i);
  }

  /** A streamed request is opened by attempt `n` in the same way; what it then reads is an answer unless the stream breaks off. */
  lemma StreamedAnswer(s: Service, calls: nat, r: ModelRequest)
    requires s.retry.Valid()
    ensures var asked := Ask(s, true, calls, r);
      var n, final := asked.attempts, OpenedAt(s, calls, r, asked.attempts);
      && n >= 1
      && (forall i :: 1 <= i < n ==> Retried(s.retry, i, OpenedAt(s, calls, r, i)))
      && (final.Err? ==> !final.error.retryable || n >= s.retry.maxAttempts)
      && (final.Err? ==> asked.answer.Err? && Reports(asked.answer.error, final.error, ProviderPhase) && asked.events == [])
      && (final.Ok? ==>
            var d := Drain(NOTHING, final.value);
            && asked.events == d.events
            && (d.error.Some? ==> asked.answer.Err? && Reports(asked.answer.error, d.error.value, Streaming))
            && (d.error == None ==>
                  var g := d.gathered;
                  asked.answer == Ok(RoundOutput(g.text, Ordered.ByName(g.calls), g.stopReason, g.usage))))
  {
    hide HookTrace, Drain, Ordered.ByName;
    var outcome := StreamOutcome(s, calls, r);
    var n := StopAttempt(s.retry, outcome, 1);
    assert forall i :: 1 <= i <= n ==> outcome(i) == OpenedAt(s, calls, r, i);
  }

  // ---- rounds, answers and failures ----

  /** The round's answer is the provider's answer to its request at some call between two call counts. */
  ghost predicate Answered(s: Setup, round: Round, from: nat, to: nat) {
    exists calls: nat :: from <= calls < to && Asks(s, round, calls, to)
  }

  ghost predicate Asks(s: Setup, round: Round, calls: nat, to: nat) {
    && s.service.retry.Valid()
    && var asked := Ask(s.service, s.streaming, calls, round.request);
    round.answer == asked.answer && calls + asked.attempts <= to
  }

  ghost predicate AllAnswered(s: Setup, rounds: seq<Round>, from: nat, to: nat) {
    from <= to && forall i :: 0 <= i < |rounds| ==> Answered(s, rounds[i], from, to)
  }

  lemma AnsweredCons(s: Setup, first: Round, rest: seq<Round>, calls: nat, from: nat, to: nat)
    requires s.service.retry.Valid() && Asks(s, first, calls, from) && calls < from <= to && AllAnswered(s, rest, from, to)
    ensures AllAnswered(s, [first] + rest, calls, to)
  {
    hide Ask;
    assert Asks(s, first, calls, to);
    forall i | 0 <= i < |[first] + rest| ensures Answered(s, ([first] + rest)[i], calls, to) {
      if i > 0 {
        var c: nat :| from <= c < to && Asks(s, rest[i - 1], c, to);
        assert ([first] + rest)[i] == rest[i - 1];
      }
    }
  }

  /** A tool error as a chat reports it. */
  predicate ReportsTool(e: ChatError, t: ToolError) {
    e == ChatError(ToolingFault, t.message, t.retryable, Some(Tooling), Some(FromToolKind(t.kind)))
  }

  /** The tools answered the calls before the `k`-th, which failed. */
  ghost predicate FailedAt(tools: ToolRuntime, id: SessionId, calls: seq<ToolCall>, execs: nat, k: nat, e: ChatError) {
    && k < |calls| && (forall j :: 0 <= j < k ==> tools(execs + j, calls[j], id).Ok?)
    && tools(execs + k, calls[k], id).Err? && ReportsTool(e, tools(execs + k, calls[k], id).error)
  }

  /** Tool execution stops at the first failing call, having executed it, and keeps no result of it. */
  lemma {:induction false} ToolsStopAtFailure(tools: ToolRuntime, id: SessionId, streaming: bool, calls: seq<ToolCall>, execs: nat)
    ensures var ran := RunTools(tools, id, streaming, calls, execs);
      && (ran.error.Some? ==> ran.executions >= 1 && FailedAt(tools, id, calls, execs, ran.executions - 1, ran.error.value))
      && (ran.error == None ==> forall j :: 0 <= j < |calls| ==> tools(execs + j, calls[j], id).Ok?)
    decreases |calls|
  {
    if calls != [] && tools(execs, calls[0], id).Ok? {
      ToolsStopAtFailure(tools, id, streaming, calls[1..], execs + 1);
      var ran, rest := RunTools(tools, id, streaming, calls, execs), RunTools(tools, id, streaming, calls[1..], execs + 1);
      var bound := if rest.error.Some? then rest.executions - 1 else |calls| - 1;
      forall j | 0 <= j < bound + 1 ensures tools(execs + j, calls[j], id).Ok? {
        if j > 0 {
          assert calls[j] == calls[1..][j - 1] && tools(execs + 1 + (j - 1), calls[1..][j - 1], id).Ok?;
        }
      }
      if rest.error.Some? {
        assert calls[bound + 1] == calls[1..][bound] && execs + 1 + bound == execs + (bound + 1);
      }
    }
  }

  ghost predicate ToolFailed(s: Setup, round: Round, e: ChatError) {
    && round.answer.Ok? && s.service.tools.Some?
    && exists k: nat :: FailedAt(s.service.tools.value, s.session.id, round.answer.value.calls, round.firstExec, k, e)
  }

  /** Why rounds may fail: a request that is not sent, an answer that is an error, or a failing tool of the last answer. */
  ghost predicate Fails(s: Setup, rounds: seq<Round>, e: ChatError) {
    || (e.kind == ProviderFault && !e.retryable && e.phase == Some(RequestValidation) && e.source == Some(FromProviderKind(InvalidRequest)))
    || (rounds != [] && rounds[|rounds| - 1].answer == Err(e))
    || (rounds != [] && ToolFailed(s, rounds[|rounds| - 1], e))
  }

  lemma FailsCons(s: Setup, first: Round, rest: seq<Round>, e: ChatError)
    requires Fails(s, rest, e)
    ensures Fails(s, [first] + rest, e)
  {
    hide ToolFailed;
    var all := [first] + rest;
    if rest != [] {
      assert all[|all| - 1] == rest[|rest| - 1];
    }
  }

  /** From any point on: every round is answered by the provider, in the order of the calls, and an error has one of the causes. */
  lemma {:induction false} RoundsAnswered(s: Setup, conversation: seq<Message>, persisted: seq<Message>, trips: nat, results: seq<ToolResult>, calls: nat, execs: nat)
    requires s.service.retry.Valid()
    ensures var end := Turn(s, conversation, persisted, trips, results, calls, execs);
      && AllAnswered(s, end.rounds, calls, end.calls)
      && (end.outcome.Err? ==> Fails(s, end.rounds, end.outcome.error))
    decreases if trips < s.service.maxToolRoundTrips then s.service.maxToolRoundTrips - trips else 0, 1
  {
    hide Turn, Proceed, Ask, Hooks, Emits, AllAnswered, Fails, RunTools;
    var built := BuildRequest(s, conversation, results);
    if built.Err? {
      TurnRejected(s, conversation, persisted, trips, results, calls, execs);
      NothingAnswered(s, calls);
      RejectedFails(s, conversation, results);
    } else {
      var request := built.value;
      var asked := Ask(s.service, s.streaming, calls, request);
      TurnAsks(s, conversation, persisted, trips, results, calls, execs, request, asked);
      AskTakesAttempts(s.service, s.streaming, calls, request);
      if asked.answer.Ok? {
        var rest := Proceed(s, conversation, persisted, trips, request, asked.answer.value, calls + asked.attempts, execs);
        ProceedAnswered(s, conversation, persisted, trips, request, asked.answer.value, calls, calls + asked.attempts, execs);
        assert [] + rest.rounds == rest.rounds;
      } else {
        var round := Round(request, asked.answer, [], execs);
        NothingAnswered(s, calls + asked.attempts);
        AnsweredCons(s, round, [], calls, calls + asked.attempts, calls + asked.attempts);
        assert [round] + [] == [round];
        LastFails(s, round, asked.answer.error);
      }
    }
  }

  lemma {:induction false} ProceedAnswered(s: Setup, conversation: seq<Message>, persisted: seq<Message>, trips: nat, request: ModelRequest, output: RoundOutput,
                                           asked: nat, calls: nat, execs: nat)
    requires s.service.retry.Valid() && asked < calls
    requires forall results: seq<ToolResult> :: Asks(s, Round(request, Ok(output), results, execs), asked, calls)
    ensures var end := Proceed(s, conversation, persisted, trips, request, output, calls, execs);
      && AllAnswered(s, end.rounds, asked, end.calls)
      && (end.outcome.Err? ==> Fails(s, end.rounds, end.outcome.error))
    decreases if trips < s.service.maxToolRoundTrips then s.service.maxToolRoundTrips - trips else 0, 0
  {
    hide Turn, Proceed, Ask, Asks, AllAnswered, Fails, RunTools, FailedAt;
    NothingAnswered(s, calls);
    if !RunsTools(s, output, trips) {
      ProceedStops(s, conversation, persisted, trips, request, output, calls, execs);
      var round := Round(request, Ok(output), [], execs);
      AnsweredCons(s, round, [], asked, calls, calls);
      assert [round] + [] == [round];
    } else {
      var ran := RunTools(s.service.tools.value, s.session.id, s.streaming, output.calls, execs);
      var round := Round(request, Ok(output), ran.results, execs);
      ProceedRunsTools(s, conversation, persisted, trips, request, output, calls, execs, ran);
      if ran.error.Some? {
        AnsweredCons(s, round, [], asked, calls, calls);
        assert [round] + [] == [round];
        ToolsStopAtFailure(s.service.tools.value, s.session.id, s.streaming, output.calls, execs);
        ToolFails(s, round, ran.executions - 1, ran.error.value);
      } else {
        var rest := Turn(s, conversation + [Answer(output)], persisted + [Answer(output)], trips + 1, ran.results, calls, execs + ran.executions);
        RoundsAnswered(s, conversation + [Answer(output)], persisted + [Answer(output)], trips + 1, ran.results, calls, execs + ran.executions);
        AnsweredOrder(s, rest.rounds, calls, rest.calls);
        AnsweredCons(s, round, rest.rounds, asked, calls, rest.calls);
        if rest.outcome.Err? {
          FailsCons(s, round, rest.rounds, rest.outcome.error);
        }
      }
    }
  }

  lemma AnsweredOrder(s: Setup, rounds: seq<Round>, from: nat, to: nat)
    requires AllAnswered(s, rounds, from, to)
    ensures from <= to
  {
  }

  lemma NothingAnswered(s: Setup, calls: nat)
    ensures AllAnswered(s, [], calls, calls)
  {
  }

  lemma AskTakesAttempts(s: Service, streaming: bool, calls: nat, r: ModelRequest)
    requires s.retry.Valid()
    ensures Ask(s, streaming, calls, r).attempts >= 1
  {
    hide HookTrace, Drain;
  }

  lemma RejectedFails(s: Setup, conversation: seq<Message>, results: seq<ToolResult>)
    requires BuildRequest(s, conversation, results).Err?
    ensures Fails(s, [], BuildRequest(s, conversation, results).error)
  {
  }

  lemma LastFails(s: Setup, round: Round, e: ChatError)
    requires round.answer == Err(e)
    ensures Fails(s, [round], e)
  {
  }

  lemma ToolFails(s: Setup, round: Round, k: nat, e: ChatError)
    requires round.answer.Ok? && s.service.tools.Some?
    requires FailedAt(s.service.tools.value, s.session.id, round.answer.value.calls, round.firstExec, k, e)
    ensures Fails(s, [round], e)
  {
    hide FailedAt;
  }

  /**
   Every round of a turn is answered by the provider at a call the turn made, and a turn fails for a reason: the wrong
   form, a blank input, the store before or after the rounds, or one of the causes within them.
   */
  lemma FailureContents(service: Service, request: ChatTurnRequest, streaming: bool, w: World)
    requires service.retry.Valid()
    ensures var report, s := WholeTurn(service, request, streaming, w), SetupOf(service, request, streaming);
      && AllAnswered(s, report.rounds, w.calls, report.world.calls)
      && (report.outcome.Err? ==>
            var e, before := report.outcome.error, w.store.operations;
            || (!streaming && request.stream && e == ChatError(BadRequest, "use stream_turn for streaming requests", false, None, None))
            || (Text.IsBlank(request.userInput) && e == ChatError(BadRequest, "user_input must not be empty", false, None, None))
            || (w.store.fault(before).Some? && e == w.store.fault(before).value.(phase := Some(Storage)))
            || Fails(s, report.rounds, e)
            || (w.store.fault(before + 1).Some? && e == w.store.fault(before + 1).value.(phase := Some(Storage))))
  {
    hide Turn, Text.IsBlank, AllAnswered, Fails;
    var s, user := SetupOf(service, request, streaming), UserMessage(request);
    NothingAnswered(s, w.calls);
    RoundsAnswered(s, Preamble(request.session, w.store.History(request.session.id)) + [user], [user], 0, [], w.calls, w.execs);
  }

  // ---- counters ----

  function Attempts(log: seq<Act>): nat {
    if log == [] then 0 else (if log[0].Hooked? && log[0].hook.AttemptStart? then 1 else 0) + Attempts(log[1..])
  }

  function Executions(log: seq<Act>): nat {
    if log == [] then 0 else (if log[0].Executed? then 1 else 0) + Executions(log[1..])
  }

  lemma {:induction false} CountsAppend(a: seq<Act>, b: seq<Act>)
    ensures Attempts(a + b) == Attempts(a) + Attempts(b) && Executions(a + b) == Executions(a) + Executions(b)
  {
    if a == [] {
      assert a + b == b;
    } else {
      assert (a + b)[1..] == a[1..] + b;
      CountsAppend(a[1..], b);
    }
  }

  lemma {:induction false} CountsOfEmits(events: seq<ChatEvent>)
    ensures Attempts(Emits(events)) == 0 && Executions(Emits(events)) == 0
  {
    if events != [] {
      assert Emits(events)[1..] == Emits(events[1..]);
      CountsOfEmits(events[1..]);
    }
  }

  lemma HooksAppend(a: seq<HookEvent>, b: seq<HookEvent>)
    ensures Hooks(a + b) == Hooks(a) + Hooks(b)
  {
  }

  lemma CountsOfPair(first: HookEvent, second: HookEvent)
    requires first.AttemptStart? && !second.AttemptStart?
    ensures Attempts(Hooks([first, second])) == 1 && Executions(Hooks([first, second])) == 0
  {
    var a, b := [Hooked(first)], [Hooked(second)];
    assert a[1..] == [] && b[1..] == [];
    assert Hooks([first, second]) == a + b;
    CountsAppend(a, b);
  }

  lemma {:induction false} CountsOfFailed<T>(policy: RetryPolicy, outcome: nat -> Result<T, ProviderError>, n: nat)
    requires policy.Valid() && n >= 1 && forall i :: 1 <= i < n ==> outcome(i).Err?
    ensures var log := Hooks(FailedAttempts(policy, outcome, n)); Attempts(log) == n - 1 && Executions(log) == 0
  {
    if n > 1 {
      hide RetryPolicy.Backoff, Hooks, Attempts, Executions;
      CountsOfFailed(policy, outcome, n - 1);
      var before, start, retry := FailedAttempts(policy, outcome, n - 1), AttemptStart(n - 1), RetryScheduled(n - 1, policy.Backoff(n - 1), outcome(n - 1).error);
      assert FailedAttempts(policy, outcome, n) == before + [start, retry];
      HooksAppend(before, [start, retry]);
      CountsAppend(Hooks(before), Hooks([start, retry]));
      CountsOfPair(start, retry);
    } else {
      assert Hooks(FailedAttempts(policy, outcome, n)) == [];
    }
  }

  lemma CountsOfTrace<T>(policy: RetryPolicy, outcome: nat -> Result<T, ProviderError>)
    requires policy.Valid()
    ensures var log := Hooks(HookTrace(policy, outcome)); Attempts(log) == StopAttempt(policy, outcome, 1) && Executions(log) == 0
  {
    hide RetryPolicy.Backoff, Hooks, Attempts, Executions, FailedAttempts, StopAttempt;
    var n := StopAttempt(policy, outcome, 1);
    var start, verdict := AttemptStart(n), match outcome(n) case Ok(_) => Success(n) case Err(e) => Failure(n, e);
    var before := FailedAttempts(policy, outcome, n);
    CountsOfFailed(policy, outcome, n);
    HooksAppend(before, [start, verdict]);
    CountsAppend(Hooks(before), Hooks([start, verdict]));
    CountsOfPair(start, verdict);
  }

  lemma CountsOfAsk(s: Service, streaming: bool, calls: nat, r: ModelRequest)
    requires s.retry.Valid()
    ensures var asked := Ask(s, streaming, calls, r);
      var log := Hooks(asked.hooks) + Emits(asked.events);
      Attempts(log) == asked.attempts && Executions(log) == 0
  {
    hide Hooks, Emits, Attempts, Executions, HookTrace, StopAttempt, Drain, Collected, Output;
    var asked := Ask(s, streaming, calls, r);
    CountsOfTrace(s.retry, CompleteOutcome(s, calls, r));
    CountsOfTrace(s.retry, StreamOutcome(s, calls, r));
    CountsAppend(Hooks(asked.hooks), Emits(asked.events));
    CountsOfEmits(asked.events);
  }

  lemma CountsOfTool(streaming: bool, call: ToolCall)
    ensures Attempts(ToolStartActs(streaming, call)) == 0 && Executions(ToolStartActs(streaming, call)) == 1
    ensures Attempts(ToolActs(streaming, call)) == 0 && Executions(ToolActs(streaming, call)) == 1
  {
    assert [Executed(call)][1..] == [];
    var started, finished := [Emitted(ToolExecutionStarted(call))], [Emitted(ToolExecutionFinished(call))];
    assert started[1..] == [] && finished[1..] == [];
    CountsAppend(started, [Executed(call)]);
    assert started + [Executed(call)] == [Emitted(ToolExecutionStarted(call)), Executed(call)];
    CountsAppend(ToolStartActs(streaming, call), if streaming then finished else []);
  }

  lemma {:induction false} CountsOfTools(tools: ToolRuntime, id: SessionId, streaming: bool, calls: seq<ToolCall>, execs: nat)
    ensures var ran := RunTools(tools, id, streaming, calls, execs); Attempts(ran.log) == 0 && Executions(ran.log) == ran.executions
    decreases |calls|
  {
    if calls != [] {
      hide Attempts, Executions, ToolActs, ToolStartActs;
      CountsOfTool(streaming, calls[0]);
      if tools(execs, calls[0], id).Ok? {
        CountsOfTools(tools, id, streaming, calls[1..], execs + 1);
        CountsAppend(ToolActs(streaming, calls[0]), RunTools(tools, id, streaming, calls[1..], execs + 1).log);
      }
    }
  }

  lemma CountsOfWarning(s: Setup, output: RoundOutput, limit: bool)
    ensures Attempts(LimitWarning(s, output, limit)) == 0 && Executions(LimitWarning(s, output, limit)) == 0
  {
  }

  /** The attempts and executions between two counts are those in the log. */
  ghost predicate Counted(calls: nat, execs: nat, end: TurnEnd) {
    end.calls == calls + Attempts(end.log) && end.execs == execs + Executions(end.log)
  }

  lemma CountedAfter(calls: nat, execs: nat, end: TurnEnd, rounds: seq<Round>, log: seq<Act>)
    requires Counted(calls + Attempts(log), execs + Executions(log), end)
    ensures Counted(calls, execs, end.After(rounds, log))
  {
    CountsAppend(log, end.log);
  }

  lemma {:induction false} RoundsCounted(s: Setup, conversation: seq<Message>, persisted: seq<Message>, trips: nat, results: seq<ToolResult>, calls: nat, execs: nat)
    requires s.service.retry.Valid()
    ensures Counted(calls, execs, Turn(s, conversation, persisted, trips, results, calls, execs))
    decreases if trips < s.service.maxToolRoundTrips then s.service.maxToolRoundTrips - trips else 0
  {
    hide Turn, Proceed, Ask, Hooks, Emits, RunTools, Attempts, Executions, Validate;
    var built := BuildRequest(s, conversation, results);
    if built.Err? {
      TurnRejected(s, conversation, persisted, trips, results, calls, execs);
      NothingCounted();
    } else {
      var asked := Ask(s.service, s.streaming, calls, built.value);
      var log, calls' := Hooks(asked.hooks) + Emits(asked.events), calls + asked.attempts;
      TurnAsks(s, conversation, persisted, trips, results, calls, execs, built.value, asked);
      CountsOfAsk(s.service, s.streaming, calls, built.value);
      if asked.answer.Ok? {
        var output := asked.answer.value;
        var rest := Proceed(s, conversation, persisted, trips, built.value, output, calls', execs);
        if !RunsTools(s, output, trips) {
          ProceedStops(s, conversation, persisted, trips, built.value, output, calls', execs);
          CountsOfWarning(s, output, s.service.tools.Some? && output.calls != []);
        } else {
          var ran := RunTools(s.service.tools.value, s.session.id, s.streaming, output.calls, execs);
          ProceedRunsTools(s, conversation, persisted, trips, built.value, output, calls', execs, ran);
          CountsOfTools(s.service.tools.value, s.session.id, s.streaming, output.calls, execs);
          if ran.error == None {
            var answer := Answer(output);
            RoundsCounted(s, conversation + [answer], persisted + [answer], trips + 1, ran.results, calls', execs + ran.executions);
            CountedAfter(calls', execs, Turn(s, conversation + [answer], persisted + [answer], trips + 1, ran.results, calls', execs + ran.executions),
                         [Round(built.value, Ok(output), ran.results, execs)], ran.log);
          }
        }
        CountedAfter(calls, execs, rest, [], log);
      }
    }
  }

  lemma NothingCounted()
    ensures Attempts([]) == 0 && Executions([]) == 0
  {
  }

  /** Over a whole turn the provider was called once for each attempt in the log, and the tools once for each execution. */
  lemma CountersMatchLog(service: Service, request: ChatTurnRequest, streaming: bool, w: World)
    requires service.retry.Valid()
    ensures var report := WholeTurn(service, request, streaming, w);
      report.world.calls == w.calls + Attempts(report.log) && report.world.execs == w.execs + Executions(report.log)
  {
    hide Turn, Text.IsBlank, Attempts, Executions;
    NothingCounted();
    var (store, loaded) := w.store.Load(request.session.id);
    if (streaming || !request.stream) && !Text.IsBlank(request.userInput) && loaded.Ok? {
      var s, user := SetupOf(service, request, streaming), UserMessage(request);
      var conversation := Preamble(request.session, loaded.value) + [user];
      var end := Turn(s, conversation, [user], 0, [], w.calls, w.execs);
      RoundsCounted(s, conversation, [user], 0, [], w.calls, w.execs);
      if end.outcome.Ok? {
        ConclusionCounted(end.log, Stored(end.outcome.value.persisted), if streaming then [Emitted(TurnComplete(ResultOf(s, end.outcome.value)))] else []);
      }
    }
  }

  lemma ConclusionCounted(log: seq<Act>, stored: Act, done: seq<Act>)
    requires stored.Stored? && |done| <= 1 && forall i :: 0 <= i < |done| ==> done[i].Emitted?
    ensures Attempts(log + [stored] + done) == Attempts(log) && Executions(log + [stored] + done) == Executions(log)
  {
    assert [stored][1..] == [] && (done != [] ==> done[1..] == []);
    CountsAppend(log, [stored]);
    CountsAppend(log + [stored], done);
  }
}
