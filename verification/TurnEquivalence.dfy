/**
 `run_turn` and `stream_turn` agree. First for one round, with the exact condition on the streamed events,
 then for whole turns with any number of rounds, retries and tool calls.
 */
module TurnEquivalence {
  import opened Wrappers
  import opened ProviderModel
  import opened Retry
  import opened ChatTurn
  import Ordered
  import Text

  // ---- one round ----

  /** Provider events before the final one. */
  ghost predicate Deltas(items: StreamItems) {
    forall i :: 0 <= i < |items| ==> items[i].Ok? && !items[i].value.ResponseComplete?
  }

  /** No event carries assistant text. */
  ghost predicate Quiet(items: StreamItems) {
    forall i :: 0 <= i < |items| && items[i].Ok? ==>
      match items[i].value
      case TextDelta(d) => d == ""
      case MessageComplete(m) => m.role == Assistant ==> m.content == ""
      case _ => true
  }

  function CallIds(calls: seq<ToolCall>): (ids: set<string>)
    ensures forall i :: 0 <= i < |calls| ==> calls[i].id in ids
    ensures forall id :: id in ids ==> exists i :: 0 <= i < |calls| && calls[i].id == id
  {
    set i | 0 <= i < |calls| :: calls[i].id
  }

  function StreamedIds(items: StreamItems): set<string> {
    set i | 0 <= i < |items| && items[i].Ok? && items[i].value.ToolCallDelta? :: items[i].value.call.id
  }

  ghost predicate IdsIncreasing(calls: seq<ToolCall>) {
    forall i, j :: 0 <= i < j < |calls| ==> Ordered.StringLess(calls[i].id, calls[j].id)
  }

  ghost predicate KeyedById(m: map<string, ToolCall>) {
    forall k :: k in m ==> m[k].id == k
  }

  /** What the events of a round must be like for the two forms to read the same output; checkable on the stream. */
  ghost predicate Mirrors(deltas: StreamItems, response: ModelResponse) {
    && (OutputText(response.output) == "" ==> Quiet(deltas))
    && IdsIncreasing(OutputCalls(response.output))
    && StreamedIds(deltas) <= CallIds(OutputCalls(response.output))
  }

  lemma {:induction false} GatherDeltas(g: Gathered, deltas: StreamItems, last: StreamEvent)
    requires Deltas(deltas)
    ensures var d, whole := Drain(g, deltas), Drain(g, deltas + [Ok(last)]);
      && d.error == None && whole.error == None
      && whole.gathered == Gather(d.gathered, last)
      && (d.gathered.text == "" <==> g.text == "" && Quiet(deltas))
      && d.gathered.calls.Keys == g.calls.Keys + StreamedIds(deltas)
      && (KeyedById(g.calls) ==> KeyedById(d.gathered.calls))
    decreases |deltas|
  {
    var items := deltas + [Ok(last)];
    if deltas == [] {
      assert items[1..] == [];
    } else {
      assert items[1..] == deltas[1..] + [Ok(last)];
      var next := Gather(g, deltas[0].value);
      GatherDeltas(next, deltas[1..], last);
      QuietCons(deltas);
      StreamedIdsCons(deltas);
    }
  }

  lemma QuietCons(deltas: StreamItems)
    requires deltas != []
    ensures Quiet(deltas) <==> Quiet(deltas[..1]) && Quiet(deltas[1..])
  {
    if Quiet(deltas[..1]) && Quiet(deltas[1..]) {
      forall i | 0 <= i < |deltas| ensures deltas[i] == if i == 0 then deltas[..1][0] else deltas[1..][i - 1] {
      }
    }
  }

  lemma StreamedIdsCons(deltas: StreamItems)
    requires deltas != []
    ensures StreamedIds(deltas) == StreamedIds(deltas[..1]) + StreamedIds(deltas[1..])
  {
    forall id | id in StreamedIds(deltas) ensures id in StreamedIds(deltas[..1]) + StreamedIds(deltas[1..]) {
      var i :| 0 <= i < |deltas| && deltas[i].Ok? && deltas[i].value.ToolCallDelta? && deltas[i].value.call.id == id;
      if i == 0 { assert deltas[..1][0] == deltas[0]; } else { assert deltas[1..][i - 1] == deltas[i]; }
    }
  }

  lemma {:induction false} InsertCallsKeys(m: map<string, ToolCall>, calls: seq<ToolCall>)
    ensures InsertCalls(m, calls).Keys == m.Keys + CallIds(calls)
    ensures KeyedById(m) ==> KeyedById(InsertCalls(m, calls))
    ensures forall k :: k in m && k !in CallIds(calls) ==> InsertCalls(m, calls)[k] == m[k]
    decreases |calls|
  {
    if calls != [] {
      InsertCallsKeys(m[calls[0].id := calls[0]], calls[1..]);
      assert CallIds(calls) == {calls[0].id} + CallIds(calls[1..]) by {
        forall id | id in CallIds(calls) ensures id in {calls[0].id} + CallIds(calls[1..]) {
          var i :| 0 <= i < |calls| && calls[i].id == id;
          if i > 0 { assert calls[1..][i - 1] == calls[i]; }
        }
      }
    }
  }

  lemma {:induction false} InsertedValues(m: map<string, ToolCall>, calls: seq<ToolCall>)
    requires IdsIncreasing(calls)
    ensures forall i :: 0 <= i < |calls| ==> calls[i].id in InsertCalls(m, calls) && InsertCalls(m, calls)[calls[i].id] == calls[i]
    decreases |calls|
  {
    if calls != [] {
      var next := m[calls[0].id := calls[0]];
      InsertedValues(next, calls[1..]);
      InsertCallsKeys(next, calls[1..]);
      Ordered.StringLessTotal();
      forall i | 0 <= i < |calls[1..]| ensures calls[1..][i].id != calls[0].id {
        assert Ordered.StringLess(calls[0].id, calls[i + 1].id);
      }
      forall i | 0 <= i < |calls| ensures calls[i].id in InsertCalls(m, calls) && InsertCalls(m, calls)[calls[i].id] == calls[i] {
        if i > 0 { assert calls[i] == calls[1..][i - 1]; }
      }
    }
  }

  /** The id-keyed map lists exactly the response's calls iff their ids increase and no other id was streamed. */
  lemma ListedIff(m: map<string, ToolCall>, calls: seq<ToolCall>)
    requires KeyedById(m)
    ensures Ordered.ByName(InsertCalls(m, calls)) == calls <==> IdsIncreasing(calls) && m.Keys <= CallIds(calls)
  {
    if IdsIncreasing(calls) && m.Keys <= CallIds(calls) { ListedIf(m, calls); }
    if Ordered.ByName(InsertCalls(m, calls)) == calls { ListedOnlyIf(m, calls); }
  }

  lemma CallIdsListed(calls: seq<ToolCall>) returns (ids: seq<string>)
    requires IdsIncreasing(calls)
    ensures |ids| == |calls| && forall i :: 0 <= i < |ids| ==> ids[i] == calls[i].id
    ensures Ordered.Increasing(Ordered.StringLess, ids)
    ensures forall k :: k in ids <==> k in CallIds(calls)
  {
    hide Ordered.StringLess, CallIds;
    ids := seq(|calls|, i requires 0 <= i < |calls| => calls[i].id);
    forall k | k in CallIds(calls) ensures k in ids {
      var i :| 0 <= i < |calls| && calls[i].id == k;
      assert ids[i] == k;
    }
  }

  lemma ListedIf(m: map<string, ToolCall>, calls: seq<ToolCall>)
    requires KeyedById(m) && IdsIncreasing(calls) && m.Keys <= CallIds(calls)
    ensures Ordered.ByName(InsertCalls(m, calls)) == calls
  {
    hide InsertCalls, KeyedById, CallIds, IdsIncreasing, Ordered.StringLess, Ordered.ByName, Ordered.Increasing;
    var all := InsertCalls(m, calls);
    InsertCallsKeys(m, calls);
    assert all.Keys == CallIds(calls);
    var ids := CallIdsListed(calls);
    InsertedValues(m, calls);
    Ordered.ByNameIs(all, ids);
  }

  lemma ListedOnlyIf(m: map<string, ToolCall>, calls: seq<ToolCall>)
    requires KeyedById(m) && Ordered.ByName(InsertCalls(m, calls)) == calls
    ensures IdsIncreasing(calls) && m.Keys <= CallIds(calls)
  {
    var all := InsertCalls(m, calls);
    InsertCallsKeys(m, calls);
    hide InsertCalls;
    Ordered.StringLessTotal();
    var keys := Ordered.SortedKeys(Ordered.StringLess, all.Keys);
    forall i | 0 <= i < |calls| ensures calls[i].id == keys[i] {
      assert keys[i] in keys;
    }
    forall k | k in m.Keys ensures k in CallIds(calls) {
      assert k in all.Keys && k in keys;
      var i :| 0 <= i < |keys| && keys[i] == k;
      assert calls[i].id == k;
    }
  }

  /** One round: the streamed output equals the completed one exactly when the deltas mirror the response. */
  lemma RoundAgreementIff(deltas: StreamItems, response: ModelResponse)
    requires Deltas(deltas)
    ensures var d := Drain(NOTHING, deltas + [Ok(ResponseComplete(response))]);
      && d.error == None
      && (Output(d.gathered) == Collected(response) <==> Mirrors(deltas, response))
  {
    GatherDeltas(NOTHING, deltas, ResponseComplete(response));
    var g := Drain(NOTHING, deltas).gathered;
    ListedIff(g.calls, OutputCalls(response.output));
  }

  // ---- whole turns ----

  function AsStream(r: ModelRequest): ModelRequest {
    r.(stream := true)
  }

  /** A stream that ends with one final response, mirrored by the events before it. */
  ghost predicate Delivers(items: StreamItems, response: ModelResponse) {
    && items != [] && items[|items| - 1] == Ok(ResponseComplete(response))
    && Deltas(items[..|items| - 1]) && Mirrors(items[..|items| - 1], response)
  }

  ghost predicate SameAnswer(completed: Result<ModelResponse, ProviderError>, streamed: Result<StreamItems, ProviderError>) {
    match completed
    case Err(e) => streamed == Err(e)
    case Ok(response) => streamed.Ok? && Delivers(streamed.value, response)
  }

  /** Both operations of the provider answer every request alike, at every call. */
  ghost predicate Consistent(p: Provider) {
    forall n: nat, r: ModelRequest :: !r.stream ==> SameAnswer(p.complete(n, r), p.stream(n, AsStream(r)))
  }

  function Silent(log: seq<Act>): seq<Act> {
    if log == [] then [] else (if log[0].Emitted? then [] else [log[0]]) + Silent(log[1..])
  }

  lemma {:induction false} SilentAppend(a: seq<Act>, b: seq<Act>)
    ensures Silent(a + b) == Silent(a) + Silent(b)
  {
    if a == [] {
      assert a + b == b;
    } else {
      assert (a + b)[1..] == a[1..] + b;
      SilentAppend(a[1..], b);
      var head, middle, tail := if a[0].Emitted? then [] else [a[0]], Silent(a[1..]), Silent(b);
      assert head + (middle + tail) == (head + middle) + tail;
    }
  }

  lemma {:induction false} SilentLog(log: seq<Act>)
    ensures (forall i :: 0 <= i < |log| ==> !log[i].Emitted?) ==> Silent(log) == log
    ensures (forall i :: 0 <= i < |log| ==> log[i].Emitted?) ==> Silent(log) == []
  {
    if log != [] {
      SilentLog(log[1..]);
      assert forall i :: 0 <= i < |log| - 1 ==> log[1..][i] == log[i + 1];
    }
  }

  lemma SameFailures(completed: Result<ModelResponse, ProviderError>, streamed: Result<StreamItems, ProviderError>)
    requires SameAnswer(completed, streamed)
    ensures completed.Ok? <==> streamed.Ok?
    ensures completed.Err? ==> completed.error == streamed.error
  {
  }

  lemma {:induction false} StopsAgree(s: Service, calls: nat, r: ModelRequest, a: nat)
    requires Consistent(s.provider) && !r.stream
    ensures StopAttempt(s.retry, CompleteOutcome(s, calls, r), a) == StopAttempt(s.retry, StreamOutcome(s, calls, AsStream(r)), a)
    decreases if a < s.retry.maxAttempts then s.retry.maxAttempts - a else 0
  {
    hide SameAnswer, AsStream;
    var completed := CompleteOutcome(s, calls, r)(a);
    assert SameAnswer(s.provider.complete(calls + a, r), s.provider.stream(calls + a, AsStream(r)));
    SameFailures(s.provider.complete(calls + a, r), s.provider.stream(calls + a, AsStream(r)));
    if completed.Err? && s.retry.ShouldRetry(a, completed.error) {
      StopsAgree(s, calls, r, a + 1);
    }
  }

  lemma {:induction false} FailuresAgree(s: Service, calls: nat, r: ModelRequest, n: nat)
    requires Consistent(s.provider) && s.retry.Valid() && !r.stream
    requires forall i :: 1 <= i < n ==> CompleteOutcome(s, calls, r)(i).Err?
    ensures forall i :: 1 <= i < n ==> StreamOutcome(s, calls, AsStream(r))(i).Err?
    ensures FailedAttempts(s.retry, CompleteOutcome(s, calls, r), n) == FailedAttempts(s.retry, StreamOutcome(s, calls, AsStream(r)), n)
  {
    hide SameAnswer, AsStream, RetryPolicy.Backoff;
    if n > 1 {
      FailuresAgree(s, calls, r, n - 1);
      var completed, streamed := s.provider.complete(calls + (n - 1), r), s.provider.stream(calls + (n - 1), AsStream(r));
      assert SameAnswer(completed, streamed);
      SameFailures(completed, streamed);
      assert CompleteOutcome(s, calls, r)(n - 1) == completed && StreamOutcome(s, calls, AsStream(r))(n - 1) == streamed;
    }
  }

  lemma AnswersMatch(p: Provider, n: nat, r: ModelRequest)
    requires Consistent(p) && !r.stream
    ensures SameAnswer(p.complete(n, r), p.stream(n, AsStream(r)))
  {
  }

  /** Both forms of one request take the same attempts, with the same hook calls, to the same answer. */
  ghost predicate AskedAlike(run: Asked, stream: Asked) {
    run.attempts == stream.attempts && run.hooks == stream.hooks && run.answer == stream.answer && run.events == []
  }

  lemma AsksAgree(s: Service, calls: nat, r: ModelRequest)
    requires Consistent(s.provider) && s.retry.Valid() && !r.stream
    ensures AskedAlike(Ask(s, false, calls, r), Ask(s, true, calls, AsStream(r)))
  {
    hide Consistent, SameAnswer, AsStream, RetryPolicy.Backoff, StopAttempt, FailedAttempts, Ask;
    var n := StopAttempt(s.retry, CompleteOutcome(s, calls, r), 1);
    StopsAgree(s, calls, r, 1);
    FailuresAgree(s, calls, r, n);
    AnswersMatch(s.provider, calls + n, r);
    AsksAgreeAt(s, calls, r, n);
  }

  /** What both forms need of one request: to stop at the same attempt, after the same failures, with matching answers. */
  lemma AsksAgreeAt(s: Service, calls: nat, r: ModelRequest, n: nat)
    requires s.retry.Valid()
    requires n == StopAttempt(s.retry, CompleteOutcome(s, calls, r), 1) == StopAttempt(s.retry, StreamOutcome(s, calls, AsStream(r)), 1)
    requires FailedAttempts(s.retry, CompleteOutcome(s, calls, r), n) == FailedAttempts(s.retry, StreamOutcome(s, calls, AsStream(r)), n)
    requires SameAnswer(s.provider.complete(calls + n, r), s.provider.stream(calls + n, AsStream(r)))
    ensures AskedAlike(Ask(s, false, calls, r), Ask(s, true, calls, AsStream(r)))
  {
    hide Drain, Output, Collected, RetryPolicy.Backoff, StopAttempt, FailedAttempts;
    var completed, streamed := CompleteOutcome(s, calls, r), StreamOutcome(s, calls, AsStream(r));
    if completed(n).Ok? {
      var items := streamed(n).value;
      assert items == items[..|items| - 1] + [items[|items| - 1]];
      RoundAgreementIff(items[..|items| - 1], completed(n).value);
    }
  }

  lemma {:induction false} ToolsAgree(tools: ToolRuntime, id: SessionId, calls: seq<ToolCall>, execs: nat)
    ensures var run, stream := RunTools(tools, id, false, calls, execs), RunTools(tools, id, true, calls, execs);
      run.results == stream.results && run.executions == stream.executions && run.error == stream.error && run.log == Silent(stream.log)
    decreases |calls|
  {
    if calls != [] {
      var c := calls[0];
      SilentTool(c);
      if tools(execs, c, id).Ok? {
        hide ToolActs, Silent;
        ToolsAgree(tools, id, calls[1..], execs + 1);
        SilentAppend(ToolActs(true, c), RunTools(tools, id, true, calls[1..], execs + 1).log);
      }
    } else {
      SilentLog([]);
    }
  }

  lemma SilentTool(c: ToolCall)
    ensures Silent(ToolStartActs(true, c)) == ToolStartActs(false, c)
    ensures Silent(ToolActs(true, c)) == ToolActs(false, c)
  {
    var started, ran, finished := [Emitted(ToolExecutionStarted(c))], [Executed(c)], [Emitted(ToolExecutionFinished(c))];
    assert ToolStartActs(true, c) == started + ran;
    SilentAppend(started, ran);
    SilentAppend(started + ran, finished);
    SilentLog(started);
    SilentLog(ran);
    SilentLog(finished);
    hide Silent;
    assert ToolActs(true, c) == (started + ran) + finished;
  }

  /** Same rounds up to the request's stream flag. */
  ghost predicate SameRounds(run: seq<Round>, stream: seq<Round>) {
    |run| == |stream| && forall i :: 0 <= i < |run| ==> stream[i] == run[i].(request := AsStream(run[i].request))
  }

  ghost predicate SameEnd(run: TurnEnd, stream: TurnEnd) {
    && run.calls == stream.calls && run.execs == stream.execs && run.outcome == stream.outcome
    && SameRounds(run.rounds, stream.rounds)
    && run.log == Silent(stream.log)
  }

  lemma SameEndAfter(run: TurnEnd, stream: TurnEnd, runRounds: seq<Round>, streamRounds: seq<Round>, runLog: seq<Act>, streamLog: seq<Act>)
    requires SameEnd(run, stream) && SameRounds(runRounds, streamRounds) && runLog == Silent(streamLog)
    ensures SameEnd(run.After(runRounds, runLog), stream.After(streamRounds, streamLog))
  {
    SilentAppend(streamLog, stream.log);
  }

  lemma SilentAsk(run: Asked, stream: Asked)
    requires run.hooks == stream.hooks && run.events == []
    ensures Hooks(run.hooks) + Emits(run.events) == Silent(Hooks(stream.hooks) + Emits(stream.events))
  {
    SilentAppend(Hooks(stream.hooks), Emits(stream.events));
    SilentLog(Hooks(stream.hooks));
    SilentLog(Emits(stream.events));
  }

  ghost predicate Twins(run: Setup, stream: Setup) {
    && run.service.retry.Valid() && !run.streaming && stream == run.(streaming := true)
  }

  /** Every request a turn comes to send from a given point on is answered alike in both forms. */
  ghost predicate AlikeAlong(s: Setup, conversation: seq<Message>, trips: nat, results: seq<ToolResult>, calls: nat, execs: nat)
    requires s.service.retry.Valid()
    decreases if trips < s.service.maxToolRoundTrips then s.service.maxToolRoundTrips - trips else 0
  {
    var built := BuildRequest(s, conversation, results);
    built.Ok? ==>
      var run, stream := Ask(s.service, false, calls, built.value), Ask(s.service, true, calls, AsStream(built.value));
      && AskedAlike(run, stream)
      && (run.answer.Ok? && RunsTools(s, run.answer.value, trips) ==>
            var ran := RunTools(s.service.tools.value, s.session.id, false, run.answer.value.calls, execs);
            ran.error == None ==>
              AlikeAlong(s, conversation + [Answer(run.answer.value)], trips + 1, ran.results, calls + run.attempts, execs + ran.executions))
  }

  /** The same of the requests after an answer. */
  ghost predicate AlikeAfter(s: Setup, conversation: seq<Message>, trips: nat, output: RoundOutput, calls: nat, execs: nat)
    requires s.service.retry.Valid()
  {
    RunsTools(s, output, trips) ==>
      var ran := RunTools(s.service.tools.value, s.session.id, false, output.calls, execs);
      ran.error == None ==> AlikeAlong(s, conversation + [Answer(output)], trips + 1, ran.results, calls, execs + ran.executions)
  }

  lemma AlikeStep(s: Setup, conversation: seq<Message>, trips: nat, results: seq<ToolResult>, calls: nat, execs: nat, request: ModelRequest)
    requires s.service.retry.Valid() && BuildRequest(s, conversation, results) == Ok(request)
    ensures var run, stream := Ask(s.service, false, calls, request), Ask(s.service, true, calls, AsStream(request));
      AlikeAlong(s, conversation, trips, results, calls, execs) <==>
        AskedAlike(run, stream) && (run.answer.Ok? ==> AlikeAfter(s, conversation, trips, run.answer.value, calls + run.attempts, execs))
  {
    hide Ask, AskedAlike, BuildRequest, RunTools;
  }

  lemma {:induction false} ConsistentAlike(s: Setup, conversation: seq<Message>, trips: nat, results: seq<ToolResult>, calls: nat, execs: nat)
    requires s.service.retry.Valid() && !s.streaming && Consistent(s.service.provider)
    ensures AlikeAlong(s, conversation, trips, results, calls, execs)
    decreases if trips < s.service.maxToolRoundTrips then s.service.maxToolRoundTrips - trips else 0
  {
    hide Consistent, Ask, AskedAlike, Validate, RunTools;
    var built := BuildRequest(s, conversation, results);
    if built.Ok? {
      AsksAgree(s.service, calls, built.value);
      var run := Ask(s.service, false, calls, built.value);
      if run.answer.Ok? && RunsTools(s, run.answer.value, trips) {
        var ran := RunTools(s.service.tools.value, s.session.id, false, run.answer.value.calls, execs);
        if ran.error == None {
          ConsistentAlike(s, conversation + [Answer(run.answer.value)], trips + 1, ran.results, calls + run.attempts, execs + ran.executions);
        }
      }
    }
  }

  lemma RequestsAgree(s: Setup, t: Setup, conversation: seq<Message>, results: seq<ToolResult>)
    requires Twins(s, t)
    ensures var built := BuildRequest(s, conversation, results);
      BuildRequest(t, conversation, results) == if built.Ok? then Ok(AsStream(built.value)) else built
    ensures BuildRequest(s, conversation, results).Ok? ==> !BuildRequest(s, conversation, results).value.stream
  {
  }

  lemma SameFailure(calls: nat, execs: nat, run: seq<Round>, stream: seq<Round>, runLog: seq<Act>, streamLog: seq<Act>, e: ChatError)
    requires SameRounds(run, stream) && (runLog == Silent(streamLog) || runLog == streamLog == [])
    ensures SameEnd(TurnEnd(calls, execs, run, runLog, Err(e)), TurnEnd(calls, execs, stream, streamLog, Err(e)))
  {
    SilentLog([]);
  }

  /** From any point on, the two forms go through the same rounds to the same end. */
  lemma {:induction false} TurnsAgree(s: Setup, t: Setup, conversation: seq<Message>, persisted: seq<Message>, trips: nat, results: seq<ToolResult>, calls: nat, execs: nat)
    requires Twins(s, t) && AlikeAlong(s, conversation, trips, results, calls, execs)
    ensures SameEnd(Turn(s, conversation, persisted, trips, results, calls, execs), Turn(t, conversation, persisted, trips, results, calls, execs))
    decreases if trips < s.service.maxToolRoundTrips then s.service.maxToolRoundTrips - trips else 0, 1
  {
    hide Turn, Proceed, Ask, Hooks, Emits, Silent, AlikeAlong, SameEnd, Validate, BuildRequest, RunTools;
    var built := BuildRequest(s, conversation, results);
    RequestsAgree(s, t, conversation, results);
    if built.Err? {
      TurnRejected(s, conversation, persisted, trips, results, calls, execs);
      TurnRejected(t, conversation, persisted, trips, results, calls, execs);
      SameFailure(calls, execs, [], [], [], [], built.error);
    } else {
      var request := built.value;
      var run, stream := Ask(s.service, false, calls, request), Ask(s.service, true, calls, AsStream(request));
      AlikeStep(s, conversation, trips, results, calls, execs, request);
      SilentAsk(run, stream);
      TurnAsks(s, conversation, persisted, trips, results, calls, execs, request, run);
      TurnAsks(t, conversation, persisted, trips, results, calls, execs, AsStream(request), stream);
      if run.answer.Ok? {
        var output, calls' := run.answer.value, calls + run.attempts;
        ProceedsAgree(s, t, conversation, persisted, trips, request, output, calls', execs);
        SameEndAfter(Proceed(s, conversation, persisted, trips, request, output, calls', execs),
                     Proceed(t, conversation, persisted, trips, AsStream(request), output, calls', execs),
                     [], [], Hooks(run.hooks) + Emits(run.events), Hooks(stream.hooks) + Emits(stream.events));
      } else {
        SameFailure(calls + run.attempts, execs, [Round(request, run.answer, [], execs)], [Round(AsStream(request), run.answer, [], execs)],
                    Hooks(run.hooks) + Emits(run.events), Hooks(stream.hooks) + Emits(stream.events), run.answer.error);
      }
    }
  }

  lemma {:induction false} ProceedsAgree(s: Setup, t: Setup, conversation: seq<Message>, persisted: seq<Message>, trips: nat,
                                         request: ModelRequest, output: RoundOutput, calls: nat, execs: nat)
    requires Twins(s, t)
    requires AlikeAfter(s, conversation, trips, output, calls, execs)
    ensures SameEnd(Proceed(s, conversation, persisted, trips, request, output, calls, execs),
                    Proceed(t, conversation, persisted, trips, AsStream(request), output, calls, execs))
    decreases if trips < s.service.maxToolRoundTrips then s.service.maxToolRoundTrips - trips else 0, 0
  {
    hide Turn, Proceed, RunTools, Silent, AlikeAlong;
    var answer := Answer(output);
    if !RunsTools(s, output, trips) {
      ProceedStops(s, conversation, persisted, trips, request, output, calls, execs);
      ProceedStops(t, conversation, persisted, trips, AsStream(request), output, calls, execs);
      SilentLog(LimitWarning(t, output, s.service.tools.Some? && output.calls != []));
    } else {
      var tools := s.service.tools.value;
      var run, stream := RunTools(tools, s.session.id, false, output.calls, execs), RunTools(tools, s.session.id, true, output.calls, execs);
      ToolsAgree(tools, s.session.id, output.calls, execs);
      ProceedRunsTools(s, conversation, persisted, trips, request, output, calls, execs, run);
      ProceedRunsTools(t, conversation, persisted, trips, AsStream(request), output, calls, execs, stream);
      if run.error == None {
        TurnsAgree(s, t, conversation + [answer], persisted + [answer], trips + 1, run.results, calls, execs + run.executions);
        SameEndAfter(Turn(s, conversation + [answer], persisted + [answer], trips + 1, run.results, calls, execs + run.executions),
                     Turn(t, conversation + [answer], persisted + [answer], trips + 1, run.results, calls, execs + run.executions),
                     [Round(request, Ok(output), run.results, execs)], [Round(AsStream(request), Ok(output), run.results, execs)], run.log, stream.log);
      }
    }
  }

  /**
   With a consistent provider `run_turn` and `stream_turn` return the same result or error, leave the same store,
   make the same requests up to the stream flag, and take the same actions in the same order: provider attempts,
   tool executions and the append. The log of one is the log of the other without the emitted events.
   */
  lemma WholeTurnsAgree(service: Service, request: ChatTurnRequest, w: World)
    requires service.retry.Valid() && Consistent(service.provider) && !request.stream
    ensures var run, stream := WholeTurn(service, request, false, w), WholeTurn(service, request, true, w);
      && run.outcome == stream.outcome
      && run.world == stream.world
      && SameRounds(run.rounds, stream.rounds)
      && run.log == Silent(stream.log)
  {
    hide Turn, WholeTurn, AlikeAlong, Consistent, SameRounds, Silent;
    ConsistentAlike(SetupOf(service, request, false), FirstConversation(request, w), 0, [], w.calls, w.execs);
    WholeTurnsAgreeAlong(service, request, w);
  }

  /** The conversation a turn starts with, once its history was loaded. */
  function FirstConversation(request: ChatTurnRequest, w: World): seq<Message> {
    Preamble(request.session, w.store.History(request.session.id)) + [UserMessage(request)]
  }

  /** So they do with any provider that answers alike those requests that the turn comes to send. */
  lemma WholeTurnsAgreeAlong(service: Service, request: ChatTurnRequest, w: World)
    requires service.retry.Valid() && !request.stream
    requires AlikeAlong(SetupOf(service, request, false), FirstConversation(request, w), 0, [], w.calls, w.execs)
    ensures var run, stream := WholeTurn(service, request, false, w), WholeTurn(service, request, true, w);
      && run.outcome == stream.outcome
      && run.world == stream.world
      && SameRounds(run.rounds, stream.rounds)
      && run.log == Silent(stream.log)
  {
    hide Turn, Silent, AlikeAlong, Text.IsBlank;
    SilentLog([]);
    var (store, loaded) := w.store.Load(request.session.id);
    if !Text.IsBlank(request.userInput) && loaded.Ok? {
      var s, t, user := SetupOf(service, request, false), SetupOf(service, request, true), UserMessage(request);
      var conversation := FirstConversation(request, w);
      TurnsAgree(s, t, conversation, [user], 0, [], w.calls, w.execs);
      var run, stream := Turn(s, conversation, [user], 0, [], w.calls, w.execs), Turn(t, conversation, [user], 0, [], w.calls, w.execs);
      if run.outcome.Ok? {
        SilentConclusion(stream.log, Stored(run.outcome.value.persisted), Emitted(TurnComplete(ResultOf(s, run.outcome.value))));
      }
    }
  }

  lemma SilentConclusion(log: seq<Act>, stored: Act, done: Act)
    requires stored.Stored? && done.Emitted?
    ensures Silent(log + [stored] + [done]) == Silent(log) + [stored] + []
  {
    SilentAppend(log, [stored]);
    SilentAppend(log + [stored], [done]);
    SilentLog([stored]);
    SilentLog([done]);
  }
}
