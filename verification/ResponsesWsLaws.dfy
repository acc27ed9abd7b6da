/** The accumulator's invariants over every event sequence, and the agreement of the two turn forms over this transport. */
module ResponsesWsLaws {
  import opened Wrappers
  import opened ProviderModel
  import opened ChatTurn
  import opened OpenAiTypes
  import opened Json
  import opened ResponsesWs
  import opened Retry
  import opened TurnEquivalence
  import Ordered

  // ---- every sequence of events ----

  datatype Trace = Trace(state: Accumulated, chunks: seq<Chunk>)

  /** The accumulator after any events, and the chunks of all of them. */
  function Feed(a: Accumulated, model: string, events: seq<Json>): Trace
    decreases |events|
  {
    if events == [] then Trace(a, [])
    else
      var c := Classify(events[0]);
      var rest := Feed(Changed(a, c), model, events[1..]);
      Trace(rest.state, Emitted(a, model, c) + rest.chunks)
  }

  /** The concatenated text deltas. */
  function DeltaText(chunks: seq<Chunk>): string {
    if chunks == [] then ""
    else (if chunks[0].TextDeltaChunk? then chunks[0].delta else "") + DeltaText(chunks[1..])
  }

  lemma {:induction false} DeltaTextAppend(a: seq<Chunk>, b: seq<Chunk>)
    ensures DeltaText(a + b) == DeltaText(a) + DeltaText(b)
  {
    if a == [] {
      assert a + b == b;
    } else {
      assert (a + b)[1..] == a[1..] + b;
      DeltaTextAppend(a[1..], b);
      var head, middle, tail := if a[0].TextDeltaChunk? then a[0].delta else "", DeltaText(a[1..]), DeltaText(b);
      assert head + (middle + tail) == (head + middle) + tail;
    }
  }

  /** The first non-empty message text that comes before any non-empty delta. */
  function Seed(events: seq<Json>): string
    decreases |events|
  {
    if events == [] then "" else SeedFrom(Classify(events[0]), Seed(events[1..]))
  }

  function SeedFrom(c: Change, later: string): string {
    match c
    case AddsText(d) => if d != "" then "" else later
    case SuggestsText(t) => if t != "" then t else later
    case _ => later
  }

  function Emitted(a: Accumulated, model: string, c: Change): seq<Chunk> {
    match Emission(a, model, c)
    case Ok(chunks) => chunks
    case Err(_) => []
  }

  /** Text is the seed followed by all deltas; keys are the calls' ids and are never removed. */
  lemma {:induction false} AccumulatorLaw(a: Accumulated, model: string, events: seq<Json>)
    requires KeyedById(a.calls)
    ensures var t := Feed(a, model, events);
      && t.state.text == (if a.text == "" then Seed(events) else a.text) + DeltaText(t.chunks)
      && KeyedById(t.state.calls)
      && a.calls.Keys <= t.state.calls.Keys
    decreases |events|
  {
    if events == [] {
      assert a.text + "" == a.text;
    } else {
      hide Classify, Changed, SeedFrom, Emitted, KeyedById, DeltaText;
      var c := Classify(events[0]);
      var next, here := Changed(a, c), Emitted(a, model, c);
      var tail := Feed(next, model, events[1..]);
      assert Feed(a, model, events) == Trace(tail.state, here + tail.chunks);
      assert Seed(events) == SeedFrom(c, Seed(events[1..]));
      hide Feed, Seed;
      StepLaw(a, model, c, Seed(events[1..]));
      AccumulatorLaw(next, model, events[1..]);
      DeltaTextAppend(here, tail.chunks);
      AddDelta(if a.text == "" then Seed(events) else a.text, DeltaText(here), DeltaText(tail.chunks));
    }
  }

  lemma AddDelta(base: string, here: string, rest: string)
    ensures base + (here + rest) == (base + here) + rest
  {
  }

  lemma StepLaw(a: Accumulated, model: string, c: Change, later: string)
    requires KeyedById(a.calls)
    ensures var next := Changed(a, c);
      && (if next.text == "" then later else next.text)
         == (if a.text == "" then SeedFrom(c, later) else a.text) + DeltaText(Emitted(a, model, c))
      && KeyedById(next.calls) && a.calls.Keys <= next.calls.Keys
  {
    StepText(a, model, c);
    hide Emitted;
    assert a.text + "" == a.text && later + "" == later;
  }

  lemma StepText(a: Accumulated, model: string, c: Change)
    ensures DeltaText(Emitted(a, model, c)) == if c.AddsText? then c.delta else ""
  {
    hide FinalResponse, Changed;
    var here := Emitted(a, model, c);
    if |here| == 1 {
      assert here[1..] == [];
    } else if |here| == 2 {
      assert here[1..][1..] == [];
      assert DeltaText(here[1..]) == "";
    }
  }

  /** Each emitted call snapshot is the map's entry at that moment, under its own id. */
  lemma SnapshotIsCurrent(a: Accumulated, model: string, c: Change, call: ToolCall)
    requires KeyedById(a.calls)
    requires Emission(a, model, c).Ok? && ToolCallDeltaChunk(call) in Emission(a, model, c).value
    ensures var next := Changed(a, c); call.id in next.calls && next.calls[call.id] == call
    ensures forall k :: k in a.calls && k != call.id ==> k in Changed(a, c).calls && Changed(a, c).calls[k] == a.calls[k]
  {
    hide FinalResponse;
  }

  // ---- one round over this transport ----

  lemma {:induction false} FinalCallsKeys(calls: map<string, ToolCall>, items: seq<Json>)
    requires KeyedById(calls)
    ensures KeyedById(FinalCalls(calls, items)) && calls.Keys <= FinalCalls(calls, items).Keys
    decreases |items|
  {
    if items != [] {
      hide Json.Text, ItemCallId;
      var item := items[0];
      var next := if item.Text("type") == Some("function_call") then
          calls[ItemCallId(item) := ToolCall(ItemCallId(item), item.Text("name").GetOr(""), item.Text("arguments").GetOr(""))]
        else calls;
      FinalCallsKeys(next, items[1..]);
    }
  }

  lemma {:induction false} FinalTextKept(text: string, items: seq<Json>)
    ensures FinalText(text, items) == "" ==> text == ""
    decreases |items|
  {
    if items != [] {
      hide Json.Text, MessageText;
      var item := items[0];
      var parsed := if item.Text("type") == Some("message") && item.Text("role") == Some("assistant") then MessageText(item) else "";
      FinalTextKept(if parsed != "" then parsed else text, items[1..]);
    }
  }

  /** Values of a map keyed by id come with strictly increasing ids, one for each key. */
  lemma ListedIds(m: map<string, ToolCall>)
    requires KeyedById(m)
    ensures IdsIncreasing(Ordered.ByName(m)) && CallIds(Ordered.ByName(m)) == m.Keys
  {
    Ordered.StringLessTotal();
    var keys, listed := Ordered.SortedKeys(Ordered.StringLess, m.Keys), Ordered.ByName(m);
    forall i | 0 <= i < |listed| ensures listed[i].id == keys[i] {
      assert keys[i] in keys;
    }
    forall k | k in m.Keys ensures k in CallIds(listed) {
      assert k in keys;
      var i :| 0 <= i < |keys| && keys[i] == k;
      assert listed[i].id == k;
    }
  }

  /** The chunks before the closing pair. */
  ghost predicate Before(chunks: seq<Chunk>, text: string, ids: set<string>) {
    forall i :: 0 <= i < |chunks| ==>
      match chunks[i]
      case TextDeltaChunk(d) => d != "" && text != ""
      case ToolCallDeltaChunk(c) => c.id in ids
      case _ => false
  }

  /** How a successful reception looks: deltas, then the final message and response, which cover them. */
  ghost predicate Covers(a: Accumulated, r: Received)
    requires r.end.Ok?
  {
    var n, final := |r.chunks|, r.end.value;
    && n >= 2
    && r.chunks[n - 2] == MessageCompleteChunk(final.message) && r.chunks[n - 1] == ResponseCompleteChunk(final)
    && (final.message.content == "" ==> a.text == "")
    && IdsIncreasing(final.message.toolCalls)
    && a.calls.Keys <= CallIds(final.message.toolCalls)
    && Before(r.chunks[..n - 2], final.message.content, CallIds(final.message.toolCalls))
  }

  lemma FinalCovers(a: Accumulated, model: string, response: Json)
    requires KeyedById(a.calls)
    ensures var final := FinalResponse(a, model, response);
      Covers(a, Received([MessageCompleteChunk(final.message), ResponseCompleteChunk(final)], Ok(final)))
  {
    var items := response.Elements("output");
    FinalCallsKeys(a.calls, items);
    FinalTextKept(a.text, items);
    ListedIds(FinalCalls(a.calls, items));
  }

  lemma StepCovers(a: Accumulated, model: string, c: Change, chunks: seq<Chunk>, rest: Received)
    requires KeyedById(a.calls) && !c.Finishes? && Emission(a, model, c) == Ok(chunks)
    requires rest.end.Ok? && Covers(Changed(a, c), rest)
    ensures KeyedById(Changed(a, c).calls)
    ensures Covers(a, rest.(chunks := chunks + rest.chunks))
  {
    hide FinalResponse, IdsIncreasing, CallIds;
    var all, n := chunks + rest.chunks, |rest.chunks|;
    assert all[..|all| - 2] == chunks + rest.chunks[..n - 2];
    var next := Changed(a, c);
    assert a.calls.Keys <= next.calls.Keys;
    assert next.text == "" ==> a.text == "";
  }

  lemma KeyedChange(a: Accumulated, c: Change)
    requires KeyedById(a.calls)
    ensures KeyedById(Changed(a, c).calls)
  {
  }

  lemma {:induction false} ReceptionCovers(a: Accumulated, model: string, frames: seq<Frame>)
    requires KeyedById(a.calls) && Receive(a, model, frames).end.Ok?
    ensures Covers(a, Receive(a, model, frames))
    decreases |frames|
  {
    hide Classify, Changed, FinalResponse, Covers;
    match frames[0] {
      case TextFrame(event) =>
        var c := Classify(event);
        var chunks := Emission(a, model, c).value;
        if c.Finishes? {
          FinalCovers(a, model, c.response);
        } else {
          KeyedChange(a, c);
          ReceptionCovers(Changed(a, c), model, frames[1..]);
          StepCovers(a, model, c, chunks, Receive(Changed(a, c), model, frames[1..]));
        }
      case Ping(_) => ReceptionCovers(a, model, frames[1..]);
      case OtherFrame => ReceptionCovers(a, model, frames[1..]);
      case _ =>
    }
  }

  /** The provider over this transport, when connecting and sending succeed; the wire request does not depend on the stream flag. */
  function WsProvider(frames: (nat, ModelRequest) -> seq<Frame>): Provider {
    Provider(
      (n: nat, r: ModelRequest) => WsCompleted(Receive(Accumulated("", map[]), r.model, frames(n, r))),
      (n: nat, r: ModelRequest) => Ok(WsStreamed(Receive(Accumulated("", map[]), r.model, frames(n, r.(stream := false))))))
  }

  function WsCompleted(r: Received): Result<ModelResponse, ProviderError> {
    match r.end
    case Ok(response) => Ok(IntoModelResponse(response))
    case Err(e) => Err(e)
  }

  function WsStreamed(r: Received): StreamItems {
    IntoItems(r.chunks) + if r.end.Err? then [Err(r.end.error)] else []
  }

  /** Every event sequence that reaches a terminal response event gives both forms the same output. */
  lemma WsDelivers(model: string, frames: seq<Frame>)
    requires Receive(Accumulated("", map[]), model, frames).end.Ok?
    ensures var r := Receive(Accumulated("", map[]), model, frames);
      Delivers(WsStreamed(r), IntoModelResponse(r.end.value))
  {
    var r := Receive(Accumulated("", map[]), model, frames);
    ReceptionCovers(Accumulated("", map[]), model, frames);
    hide Receive;
    CollectedResponse(r.end.value);
    var items, n := WsStreamed(r), |r.chunks|;
    assert items == IntoItems(r.chunks);
    CoveredItems(r, items);
  }

  lemma CoveredItems(r: Received, items: StreamItems)
    requires r.end.Ok? && Covers(Accumulated("", map[]), r) && items == IntoItems(r.chunks)
    requires OutputText(IntoModelResponse(r.end.value).output) == r.end.value.message.content
    requires OutputCalls(IntoModelResponse(r.end.value).output) == r.end.value.message.toolCalls
    ensures Delivers(items, IntoModelResponse(r.end.value))
  {
    hide IntoModelResponse, OutputText, OutputCalls, IdsIncreasing;
    var n := |items|;
    var deltas := items[..n - 1];
    var before := r.chunks[..n - 2];
    forall i | 0 <= i < n - 1 ensures deltas[i] == Ok(IntoStreamEvent(r.chunks[i])) && (i < n - 2 ==> r.chunks[i] == before[i]) {
    }
  }

  /** The events of request `r` at call `n` reach a terminal response event. */
  predicate EndsWell(frames: (nat, ModelRequest) -> seq<Frame>, n: nat, r: ModelRequest) {
    Receive(Accumulated("", map[]), r.model, frames(n, r.(stream := false))).end.Ok?
  }

  /** A streamed request takes one attempt: opening the stream does not fail, reading it may. */
  lemma WsStreamedAsk(s: Service, frames: (nat, ModelRequest) -> seq<Frame>, calls: nat, r: ModelRequest)
    requires s.retry.Valid() && s.provider == WsProvider(frames) && !r.stream
    ensures var stream := Ask(s, true, calls, AsStream(r));
      && stream.attempts == 1
      && (!EndsWell(frames, calls + 1, r) ==> stream.answer.Err? && stream.answer.error.phase == Some(Streaming))
  {
    hide Receive, Drain, HookTrace, Output;
    var outcome := StreamOutcome(s, calls, AsStream(r));
    assert AsStream(r).(stream := false) == r.(stream := false) == r;
    var received := Receive(Accumulated("", map[]), r.model, frames(calls + 1, r));
    assert outcome(1) == Ok(WsStreamed(received));
    if received.end.Err? {
      DrainBroken(NOTHING, IntoItems(received.chunks), received.end.error);
    }
  }

  lemma {:induction false} DrainBroken(g: Gathered, items: StreamItems, e: ProviderError)
    requires forall i :: 0 <= i < |items| ==> items[i].Ok?
    ensures Drain(g, items + [Err(e)]).error == Some(e)
    decreases |items|
  {
    var all := items + [Err(e)];
    if items != [] {
      assert all[1..] == items[1..] + [Err(e)];
      DrainBroken(Gather(g, items[0].value), items[1..], e);
    }
  }

  /** A completed request that fails says so in the provider phase. */
  lemma CompletedAsk(s: Service, calls: nat, r: ModelRequest)
    requires s.retry.Valid()
    ensures var run := Ask(s, false, calls, r);
      run.events == [] && (run.answer.Err? ==> run.answer.error.phase == Some(ProviderPhase))
  {
    hide HookTrace, StopAttempt, Collected;
  }

  /** One request: the two forms get the same answer exactly when the events of its first call reach a terminal response event. */
  lemma WsAsksAgreeIff(s: Service, frames: (nat, ModelRequest) -> seq<Frame>, calls: nat, r: ModelRequest)
    requires s.retry.Valid() && s.provider == WsProvider(frames) && !r.stream
    ensures var run, stream := Ask(s, false, calls, r), Ask(s, true, calls, AsStream(r));
      && (run.answer == stream.answer <==> EndsWell(frames, calls + 1, r))
      && (AskedAlike(run, stream) <==> EndsWell(frames, calls + 1, r))
  {
    WsStreamedAsk(s, frames, calls, r);
    CompletedAsk(s, calls, r);
    hide Ask;
    if EndsWell(frames, calls + 1, r) {
      hide Receive, Delivers;
      assert r.(stream := false) == r && AsStream(r).(stream := false) == r;
      WsDelivers(r.model, frames(calls + 1, r));
      AsksAgreeAt(s, calls, r, 1);
    }
  }

  /** The `i`-th of some rounds was sent as call `calls + 1 + i`, and its events reached a terminal response event. */
  predicate AllEndWell(frames: (nat, ModelRequest) -> seq<Frame>, calls: nat, rounds: seq<Round>) {
    forall i :: 0 <= i < |rounds| ==> EndsWell(frames, calls + 1 + i, rounds[i].request)
  }

  lemma AllEndWellCons(frames: (nat, ModelRequest) -> seq<Frame>, calls: nat, first: Round, rest: seq<Round>)
    ensures AllEndWell(frames, calls, [first] + rest) <==> EndsWell(frames, calls + 1, first.request) && AllEndWell(frames, calls + 1, rest)
  {
    hide EndsWell;
    var all := [first] + rest;
    if AllEndWell(frames, calls, all) {
      forall i | 0 <= i < |rest| ensures EndsWell(frames, calls + 1 + 1 + i, rest[i].request) {
        assert all[i + 1] == rest[i] && EndsWell(frames, calls + 1 + (i + 1), all[i + 1].request);
      }
      assert EndsWell(frames, calls + 1 + 0, all[0].request);
    }
    if EndsWell(frames, calls + 1, first.request) && AllEndWell(frames, calls + 1, rest) {
      forall i | 0 <= i < |all| ensures EndsWell(frames, calls + 1 + i, all[i].request) {
        if i > 0 {
          assert all[i] == rest[i - 1] && EndsWell(frames, calls + 1 + 1 + (i - 1), rest[i - 1].request);
        }
      }
    }
  }

  lemma EndsWellEitherForm(frames: (nat, ModelRequest) -> seq<Frame>, n: nat, r: ModelRequest)
    ensures EndsWell(frames, n, AsStream(r)) <==> EndsWell(frames, n, r)
  {
    assert AsStream(r).(stream := false) == r.(stream := false);
  }

  /** From any point of a turn on: its requests are answered alike exactly when those the streamed turn sends all end well. */
  lemma {:induction false} WsAlikeIff(s: Setup, t: Setup, frames: (nat, ModelRequest) -> seq<Frame>,
                                      conversation: seq<Message>, persisted: seq<Message>, trips: nat, results: seq<ToolResult>, calls: nat, execs: nat)
    requires Twins(s, t) && s.service.provider == WsProvider(frames)
    ensures var stream := Turn(t, conversation, persisted, trips, results, calls, execs);
      && (AlikeAlong(s, conversation, trips, results, calls, execs) <==> AllEndWell(frames, calls, stream.rounds))
      && (!AllEndWell(frames, calls, stream.rounds) ==> stream.outcome.Err? && stream.outcome.error.phase == Some(Streaming))
    decreases if trips < s.service.maxToolRoundTrips then s.service.maxToolRoundTrips - trips else 0, 1
  {
    hide Turn, Proceed, Ask, AskedAlike, AlikeAlong, AlikeAfter, Hooks, Emits, Validate, BuildRequest, AllEndWell, EndsWell, WsProvider;
    var built := BuildRequest(s, conversation, results);
    RequestsAgree(s, t, conversation, results);
    if built.Err? {
      TurnRejected(t, conversation, persisted, trips, results, calls, execs);
      NothingSent(s, conversation, trips, results, calls, execs, frames);
    } else {
      var request := built.value;
      var run, stream := Ask(s.service, false, calls, request), Ask(s.service, true, calls, AsStream(request));
      AlikeStep(s, conversation, trips, results, calls, execs, request);
      TurnAsks(t, conversation, persisted, trips, results, calls, execs, AsStream(request), stream);
      WsAsksAgreeIff(s.service, frames, calls, request);
      WsStreamedAsk(s.service, frames, calls, request);
      EndsWellEitherForm(frames, calls + 1, request);
      var sent := Round(AsStream(request), stream.answer, [], execs);
      if !EndsWell(frames, calls + 1, request) {
        AllEndWellCons(frames, calls, sent, []);
        assert [sent] + [] == [sent];
      } else {
        AlikeAnswers(run, stream);
        if stream.answer.Ok? {
          WsAlikeAfterIff(s, t, frames, conversation, persisted, trips, AsStream(request), stream.answer.value, calls, execs);
          var end := Proceed(t, conversation, persisted, trips, AsStream(request), stream.answer.value, calls + 1, execs);
          assert [] + end.rounds == end.rounds;
        } else {
          AllEndWellCons(frames, calls, sent, []);
          assert [sent] + [] == [sent];
          NoRounds(frames, calls + 1);
        }
      }
    }
  }

  lemma AlikeAnswers(run: Asked, stream: Asked)
    requires AskedAlike(run, stream)
    ensures run.answer == stream.answer && run.attempts == stream.attempts
  {
  }

  lemma NoRounds(frames: (nat, ModelRequest) -> seq<Frame>, calls: nat)
    ensures AllEndWell(frames, calls, [])
  {
  }

  lemma NothingSent(s: Setup, conversation: seq<Message>, trips: nat, results: seq<ToolResult>, calls: nat, execs: nat, frames: (nat, ModelRequest) -> seq<Frame>)
    requires s.service.retry.Valid() && BuildRequest(s, conversation, results).Err?
    ensures AlikeAlong(s, conversation, trips, results, calls, execs) && AllEndWell(frames, calls, [])
  {
    hide BuildRequest;
  }

  lemma {:induction false} WsAlikeAfterIff(s: Setup, t: Setup, frames: (nat, ModelRequest) -> seq<Frame>, conversation: seq<Message>, persisted: seq<Message>,
                                           trips: nat, request: ModelRequest, output: RoundOutput, calls: nat, execs: nat)
    requires Twins(s, t) && s.service.provider == WsProvider(frames) && EndsWell(frames, calls + 1, request)
    ensures var stream := Proceed(t, conversation, persisted, trips, request, output, calls + 1, execs);
      && (AlikeAfter(s, conversation, trips, output, calls + 1, execs) <==> AllEndWell(frames, calls, stream.rounds))
      && (!AllEndWell(frames, calls, stream.rounds) ==> stream.outcome.Err? && stream.outcome.error.phase == Some(Streaming))
    decreases if trips < s.service.maxToolRoundTrips then s.service.maxToolRoundTrips - trips else 0, 0
  {
    hide Turn, Proceed, RunTools, AlikeAlong, AllEndWell, EndsWell, WsProvider;
    var answer := Answer(output);
    NoRounds(frames, calls + 1);
    if !RunsTools(s, output, trips) {
      ProceedStops(t, conversation, persisted, trips, request, output, calls + 1, execs);
      var sent := Round(request, Ok(output), [], execs);
      AllEndWellCons(frames, calls, sent, []);
      assert [sent] + [] == [sent];
    } else {
      var tools := s.service.tools.value;
      var run, stream := RunTools(tools, s.session.id, false, output.calls, execs), RunTools(tools, s.session.id, true, output.calls, execs);
      ToolsAgree(tools, s.session.id, output.calls, execs);
      ProceedRunsTools(t, conversation, persisted, trips, request, output, calls + 1, execs, stream);
      var sent := Round(request, Ok(output), stream.results, execs);
      if run.error == None {
        var rest := Turn(t, conversation + [answer], persisted + [answer], trips + 1, stream.results, calls + 1, execs + stream.executions);
        WsAlikeIff(s, t, frames, conversation + [answer], persisted + [answer], trips + 1, stream.results, calls + 1, execs + stream.executions);
        AllEndWellCons(frames, calls, sent, rest.rounds);
      } else {
        AllEndWellCons(frames, calls, sent, []);
        assert [sent] + [] == [sent];
      }
    }
  }

  /** `run_turn` reports no error in the streaming phase. */
  lemma {:induction false} NeverStreaming(s: Setup, conversation: seq<Message>, persisted: seq<Message>, trips: nat, results: seq<ToolResult>, calls: nat, execs: nat)
    requires s.service.retry.Valid() && !s.streaming
    ensures var end := Turn(s, conversation, persisted, trips, results, calls, execs);
      end.outcome.Err? ==> end.outcome.error.phase != Some(Streaming)
    decreases if trips < s.service.maxToolRoundTrips then s.service.maxToolRoundTrips - trips else 0
  {
    hide Turn, Proceed, Ask, Hooks, Emits, Validate, RunTools;
    var built := BuildRequest(s, conversation, results);
    if built.Err? {
      TurnRejected(s, conversation, persisted, trips, results, calls, execs);
    } else {
      var run := Ask(s.service, false, calls, built.value);
      CompletedAsk(s.service, calls, built.value);
      TurnAsks(s, conversation, persisted, trips, results, calls, execs, built.value, run);
      if run.answer.Ok? {
        var output, calls' := run.answer.value, calls + run.attempts;
        if !RunsTools(s, output, trips) {
          ProceedStops(s, conversation, persisted, trips, built.value, output, calls', execs);
        } else {
          var ran := RunTools(s.service.tools.value, s.session.id, false, output.calls, execs);
          ToolErrors(s.service.tools.value, s.session.id, false, output.calls, execs);
          ProceedRunsTools(s, conversation, persisted, trips, built.value, output, calls', execs, ran);
          if ran.error == None {
            NeverStreaming(s, conversation + [Answer(output)], persisted + [Answer(output)], trips + 1, ran.results, calls', execs + ran.executions);
          }
        }
      }
    }
  }

  lemma {:induction false} ToolErrors(tools: ToolRuntime, id: SessionId, streaming: bool, calls: seq<ToolCall>, execs: nat)
    ensures var ran := RunTools(tools, id, streaming, calls, execs);
      ran.error.Some? ==> ran.error.value.phase == Some(Tooling)
  {
    if calls != [] && tools(execs, calls[0], id).Ok? {
      ToolErrors(tools, id, streaming, calls[1..], execs + 1);
    }
  }

  /**
   Over the WebSocket adapter the two forms of a turn come to the same result, for any number of rounds, exactly when
   the events of every request the streamed turn sends reach a terminal response event. They then also leave the same
   store and counters, make the same requests and take the same actions.
   */
  lemma WsTurnsAgreeIff(service: Service, frames: (nat, ModelRequest) -> seq<Frame>, request: ChatTurnRequest, w: World)
    requires service.retry.Valid() && service.provider == WsProvider(frames) && !request.stream
    ensures var run, stream := WholeTurn(service, request, false, w), WholeTurn(service, request, true, w);
      && (run.outcome == stream.outcome <==> AllEndWell(frames, w.calls, stream.rounds))
      && (AllEndWell(frames, w.calls, stream.rounds) ==>
            run.world == stream.world && SameRounds(run.rounds, stream.rounds) && run.log == Silent(stream.log))
  {
    hide Turn, AlikeAlong, AllEndWell, SameRounds, Silent, Text.IsBlank, WsProvider, FirstConversation;
    var s, t, user := SetupOf(service, request, false), SetupOf(service, request, true), UserMessage(request);
    var (store, loaded) := w.store.Load(request.session.id);
    var conversation := FirstConversation(request, w);
    FirstRounds(service, request, false, w);
    FirstRounds(service, request, true, w);
    hide WholeTurn;
    if !Text.IsBlank(request.userInput) && loaded.Ok? {
      WsAlikeIff(s, t, frames, conversation, [user], 0, [], w.calls, w.execs);
      NeverStreaming(s, conversation, [user], 0, [], w.calls, w.execs);
      if AlikeAlong(s, conversation, 0, [], w.calls, w.execs) {
        WholeTurnsAgreeAlong(service, request, w);
      }
    } else {
      NoRounds(frames, w.calls);
      NothingLogged();
    }
  }

  /** What both forms of a turn do before and after their rounds. */
  lemma FirstRounds(service: Service, request: ChatTurnRequest, streaming: bool, w: World)
    requires service.retry.Valid() && !request.stream
    ensures var report, s := WholeTurn(service, request, streaming, w), SetupOf(service, request, streaming);
      var (store, loaded) := w.store.Load(request.session.id);
      if Text.IsBlank(request.userInput) || loaded.Err? then
        report.rounds == [] && report.log == [] && report == WholeTurn(service, request, true, w)
      else
        var end := Turn(s, FirstConversation(request, w), [UserMessage(request)], 0, [], w.calls, w.execs);
        && report.rounds == end.rounds
        && (end.outcome.Err? ==> report.outcome == Err(end.outcome.error))
        && (report.outcome.Err? && end.outcome.Ok? ==> report.outcome.error.phase == Some(Storage))
  {
    hide Turn, Text.IsBlank;
  }

  lemma NothingLogged()
    ensures SameRounds([], []) && Silent([]) == []
  {
  }

  // ---- a connection that closes once ----

  /** When the connection closes on the first call, `run_turn` retries and gets the answer of the second; the stream just fails. */
  lemma ClosedThenRetried(s: Service, frames: (nat, ModelRequest) -> seq<Frame>, calls: nat, r: ModelRequest)
    requires s.retry.Valid() && s.provider == WsProvider(frames) && !r.stream && s.retry.maxAttempts >= 2
    requires frames(calls + 1, r) == [Close] && EndsWell(frames, calls + 2, r)
    ensures var run, stream := Ask(s, false, calls, r), Ask(s, true, calls, AsStream(r));
      && run.answer.Ok? && run.attempts == 2
      && stream.answer == Err(OfProvider(CLOSED, Streaming)) && stream.attempts == 1
  {
    hide Drain, HookTrace, Collected, Output;
    assert r.(stream := false) == r && AsStream(r).(stream := false) == r;
    var completed, streamed := CompleteOutcome(s, calls, r), StreamOutcome(s, calls, AsStream(r));
    assert completed(1) == Err(CLOSED) && completed(2).Ok?;
    assert StopAttempt(s.retry, completed, 2) == 2;
    assert StopAttempt(s.retry, completed, 1) == 2;
    assert streamed(1) == Ok([] + [Err(CLOSED)]);
    DrainBroken(NOTHING, [], CLOSED);
  }

  const COMPLETED := Object(map["type" := Str("response.completed")])

  function ClosesOnce(): (nat, ModelRequest) -> seq<Frame> {
    (n: nat, r: ModelRequest) => if n == 1 then [Close] else [TextFrame(COMPLETED)]
  }

  lemma CompletedFinishes()
    ensures Classify(COMPLETED).Finishes?
  {
    hide MapWsError, MessageText, ItemCallId;
    assert COMPLETED.Text("type") == Some("response.completed");
    var eventType := "response.completed";
    assert |eventType| == 18 && IsTerminal(eventType);
    assert |"error"| == 5 && |"response.output_text.delta"| == 26 && |"response.function_call_arguments.delta"| == 38;
    assert |"response.output_item.added"| == 26 && |"response.output_item.done"| == 25;
  }

  const ONE_TURN := ChatTurnRequest(ChatSession([], "m", None), "u", None, None, false)

  function RetryingService(): Service {
    Service(WsProvider(ClosesOnce()), None, 0, None, None, RetryPolicy(2, 0.0, 0.0, 1.0))
  }

  /** Without tools and with a store that accepts everything, a turn is its one request. */
  lemma ToolFreeTurn(service: Service, request: ChatTurnRequest, streaming: bool, w: World)
    requires service.retry.Valid() && service.tools == None && !request.stream && !Text.IsBlank(request.userInput)
    requires forall n :: w.store.fault(n) == None
    requires BuildRequest(SetupOf(service, request, streaming), FirstConversation(request, w), []).Ok?
    ensures var sent := BuildRequest(SetupOf(service, request, streaming), FirstConversation(request, w), []).value;
      var answer, outcome := Ask(service, streaming, w.calls, sent).answer, WholeTurn(service, request, streaming, w).outcome;
      (answer.Ok? <==> outcome.Ok?) && (answer.Err? ==> outcome == Err(answer.error))
  {
    hide Text.IsBlank, Ask, Turn, Proceed, Hooks, Emits, BuildRequest;
    var s, conversation, user := SetupOf(service, request, streaming), FirstConversation(request, w), UserMessage(request);
    var sent := BuildRequest(s, conversation, []).value;
    var asked := Ask(service, streaming, w.calls, sent);
    TurnAsks(s, conversation, [user], 0, [], w.calls, w.execs, sent, asked);
    if asked.answer.Ok? {
      ProceedStops(s, conversation, [user], 0, sent, asked.answer.value, w.calls + asked.attempts, w.execs);
    }
  }

  /** So a whole turn may succeed in one form and fail in the other. */
  lemma ClosedTurnsDiffer()
    ensures var w := World(Store(map[], 0, _ => None), 0, 0);
      && WholeTurn(RetryingService(), ONE_TURN, false, w).outcome.Ok?
      && WholeTurn(RetryingService(), ONE_TURN, true, w).outcome == Err(OfProvider(CLOSED, Streaming))
  {
    hide Text.IsBlank, Ask, WholeTurn, Classify, Emission, FinalResponse;
    var service, w := RetryingService(), World(Store(map[], 0, _ => None), 0, 0);
    var request := RequestOf(SetupOf(service, ONE_TURN, false), FirstConversation(ONE_TURN, w), []);
    WordsAreNotBlank();
    RequestsAgree(SetupOf(service, ONE_TURN, false), SetupOf(service, ONE_TURN, true), FirstConversation(ONE_TURN, w), []);
    SecondCallEndsWell(request);
    ClosedThenRetried(service, ClosesOnce(), 0, request);
    ToolFreeTurn(service, ONE_TURN, false, w);
    ToolFreeTurn(service, ONE_TURN, true, w);
  }

  lemma SecondCallEndsWell(r: ModelRequest)
    ensures EndsWell(ClosesOnce(), 2, r)
  {
    CompletedFinishes();
    hide Classify, FinalResponse;
  }

  lemma WordsAreNotBlank()
    ensures !Text.IsBlank("m") && !Text.IsBlank("u")
  {
    Text.BlankIff("m");
    Text.BlankIff("u");
    assert "m"[0] == 'm' && "u"[0] == 'u';
  }
}
