/** What holds of every turn, in either form: the round cap, the pairing of calls and results, and the transcript. */
module TurnLaws {
  import opened Wrappers
  import opened ProviderModel
  import opened Retry
  import opened ChatTurn
  import Text

  /** The assistant messages of the answered rounds. */
  function Answers(rounds: seq<Round>): seq<Message> {
    if rounds == [] then []
    else if rounds[0].answer.Ok? then [Answer(rounds[0].answer.value)] + Answers(rounds[1..])
    else Answers(rounds[1..])
  }

  /** The runtime answered every call of the round, in order, with one result each. */
  ghost predicate FullyExecuted(s: Setup, r: Round) {
    && s.service.tools.Some? && r.answer.Ok? && r.answer.value.calls != []
    && |r.results| == |r.answer.value.calls|
    && forall k :: 0 <= k < |r.results| ==>
      s.service.tools.value(r.firstExec + k, r.answer.value.calls[k], s.session.id) == Ok(r.results[k])
  }

  /** Request `i` holds the conversation so far and the tool results of round `i - 1`, and of no older round. */
  ghost predicate SentInTurn(s: Setup, conversation: seq<Message>, results: seq<ToolResult>, rounds: seq<Round>, i: nat)
    requires i < |rounds|
  {
    rounds[i].request == RequestOf(s, conversation + Answers(rounds[..i]), if i == 0 then results else rounds[i - 1].results)
  }

  /** Every round but the last had all of its tool calls executed before the next request. */
  ghost predicate Chained(s: Setup, conversation: seq<Message>, results: seq<ToolResult>, rounds: seq<Round>) {
    && (forall i :: 0 <= i < |rounds| ==> SentInTurn(s, conversation, results, rounds, i))
    && (forall i :: 0 <= i < |rounds| - 1 ==>
      FullyExecuted(s, rounds[i]) && rounds[i + 1].firstExec == rounds[i].firstExec + |rounds[i].results|)
  }

  /** How a turn that is ready to be stored ends. */
  ghost predicate WellFinished(s: Setup, persisted: seq<Message>, rounds: seq<Round>, f: Finish) {
    && rounds != []
    && (forall i :: 0 <= i < |rounds| ==> rounds[i].answer.Ok?)
    && f.persisted == persisted + Answers(rounds)
    && f.output == rounds[|rounds| - 1].answer.value
    && (f.limitReached <==> s.service.tools.Some? && f.output.calls != [])
  }

  lemma {:induction false} ToolsComplete(tools: ToolRuntime, id: SessionId, streaming: bool, calls: seq<ToolCall>, execs: nat)
    ensures var ran := RunTools(tools, id, streaming, calls, execs);
      ran.error == None ==>
        && |ran.results| == |calls| == ran.executions
        && forall k :: 0 <= k < |calls| ==> tools(execs + k, calls[k], id) == Ok(ran.results[k])
  {
    if calls != [] && tools(execs, calls[0], id).Ok? {
      ToolsComplete(tools, id, streaming, calls[1..], execs + 1);
      var ran, rest := RunTools(tools, id, streaming, calls, execs), RunTools(tools, id, streaming, calls[1..], execs + 1);
      if rest.error == None {
        forall k | 0 <= k < |calls| ensures tools(execs + k, calls[k], id) == Ok(ran.results[k]) {
          if k > 0 {
            assert calls[k] == calls[1..][k - 1] && ran.results[k] == rest.results[k - 1];
            assert tools(execs + 1 + (k - 1), calls[1..][k - 1], id) == Ok(rest.results[k - 1]);
          }
        }
      }
    }
  }

  lemma SentLater(s: Setup, conversation: seq<Message>, results: seq<ToolResult>, first: Round, rest: seq<Round>, i: nat)
    requires 0 < i <= |rest| && first.answer.Ok?
    requires SentInTurn(s, conversation + [Answer(first.answer.value)], first.results, rest, i - 1)
    ensures SentInTurn(s, conversation, results, [first] + rest, i)
  {
    var rounds, answer, before := [first] + rest, Answer(first.answer.value), Answers(rest[..i - 1]);
    assert rounds[..i] == [first] + rest[..i - 1];
    assert rounds[..i][1..] == rest[..i - 1];
    assert Answers(rounds[..i]) == [answer] + before;
    hide Answers;
    assert conversation + ([answer] + before) == conversation + [answer] + before;
  }

  lemma ChainedCons(s: Setup, conversation: seq<Message>, results: seq<ToolResult>, first: Round, rest: seq<Round>)
    requires first.request == RequestOf(s, conversation, results) && FullyExecuted(s, first)
    requires Chained(s, conversation + [Answer(first.answer.value)], first.results, rest)
    requires rest != [] ==> rest[0].firstExec == first.firstExec + |first.results|
    ensures Chained(s, conversation, results, [first] + rest)
  {
    var rounds := [first] + rest;
    assert first.answer.Ok?;
    hide FullyExecuted, SentInTurn;
    forall i | 0 <= i < |rounds| ensures SentInTurn(s, conversation, results, rounds, i) {
      if i == 0 {
        SentFirst(s, conversation, results, rounds);
      } else {
        SentLater(s, conversation, results, first, rest, i);
      }
    }
    forall i | 0 <= i < |rounds| - 1
      ensures FullyExecuted(s, rounds[i]) && rounds[i + 1].firstExec == rounds[i].firstExec + |rounds[i].results|
    {
      if i > 0 {
        assert rounds[i] == rest[i - 1] && rounds[i + 1] == rest[i - 1 + 1];
      }
    }
  }

  lemma SentFirst(s: Setup, conversation: seq<Message>, results: seq<ToolResult>, rounds: seq<Round>)
    requires rounds != [] && rounds[0].request == RequestOf(s, conversation, results)
    ensures SentInTurn(s, conversation, results, rounds, 0)
  {
    assert rounds[..0] == [];
    assert conversation + [] == conversation;
  }

  lemma LoneRound(s: Setup, conversation: seq<Message>, results: seq<ToolResult>, round: Round)
    requires round.request == RequestOf(s, conversation, results)
    ensures Chained(s, conversation, results, [round])
  {
    SentFirst(s, conversation, results, [round]);
  }

  lemma NoRound(s: Setup, conversation: seq<Message>, results: seq<ToolResult>)
    ensures Chained(s, conversation, results, [])
  {
  }

  lemma FinishedOne(s: Setup, persisted: seq<Message>, round: Round, limit: bool)
    requires round.answer.Ok? && (limit <==> s.service.tools.Some? && round.answer.value.calls != [])
    ensures WellFinished(s, persisted, [round], Finish(persisted + [Answer(round.answer.value)], round.answer.value, limit))
  {
    assert [round][1..] == [];
    assert Answers([round]) == [Answer(round.answer.value)] + Answers([]);
  }

  lemma FinishedCons(s: Setup, persisted: seq<Message>, first: Round, rest: seq<Round>, f: Finish)
    requires first.answer.Ok? && WellFinished(s, persisted + [Answer(first.answer.value)], rest, f)
    ensures WellFinished(s, persisted, [first] + rest, f)
  {
    var answer := Answer(first.answer.value);
    assert ([first] + rest)[1..] == rest;
    assert persisted + [answer] + Answers(rest) == persisted + ([answer] + Answers(rest));
  }

  /** Round cap, pairing and outcome of the rounds from any point of a turn on. */
  ghost predicate Lawful(s: Setup, conversation: seq<Message>, persisted: seq<Message>, trips: nat, results: seq<ToolResult>, execs: nat, end: TurnEnd) {
    && |end.rounds| <= s.service.maxToolRoundTrips - trips + 1
    && Chained(s, conversation, results, end.rounds)
    && (end.rounds != [] ==> end.rounds[0].firstExec == execs)
    && (end.outcome.Ok? ==> WellFinished(s, persisted, end.rounds, end.outcome.value))
  }

  lemma LawfulAfterAsking(s: Setup, conversation: seq<Message>, persisted: seq<Message>, trips: nat, results: seq<ToolResult>, execs: nat, end: TurnEnd, log: seq<Act>)
    requires Lawful(s, conversation, persisted, trips, results, execs, end)
    ensures Lawful(s, conversation, persisted, trips, results, execs, end.After([], log))
  {
    assert [] + end.rounds == end.rounds;
  }

  lemma {:induction false} RoundsLaw(s: Setup, conversation: seq<Message>, persisted: seq<Message>, trips: nat, results: seq<ToolResult>, calls: nat, execs: nat)
    requires s.service.retry.Valid() && trips <= s.service.maxToolRoundTrips
    ensures Lawful(s, conversation, persisted, trips, results, execs, Turn(s, conversation, persisted, trips, results, calls, execs))
    decreases s.service.maxToolRoundTrips - trips, 1
  {
    hide Turn, Proceed, Ask, Hooks, Emits, Validate, Chained, WellFinished;
    var built := BuildRequest(s, conversation, results);
    NoRound(s, conversation, results);
    if built.Err? {
      TurnRejected(s, conversation, persisted, trips, results, calls, execs);
    } else {
      var request := built.value;
      var asked := Ask(s.service, s.streaming, calls, request);
      var log := Hooks(asked.hooks) + Emits(asked.events);
      TurnAsks(s, conversation, persisted, trips, results, calls, execs, request, asked);
      if asked.answer.Ok? {
        ProceedLaw(s, conversation, persisted, trips, results, request, asked.answer.value, calls + asked.attempts, execs);
        LawfulAfterAsking(s, conversation, persisted, trips, results, execs,
                          Proceed(s, conversation, persisted, trips, request, asked.answer.value, calls + asked.attempts, execs), log);
      } else {
        LoneRound(s, conversation, results, Round(request, asked.answer, [], execs));
      }
    }
  }

  lemma {:induction false} ProceedLaw(s: Setup, conversation: seq<Message>, persisted: seq<Message>, trips: nat, results: seq<ToolResult>,
                                      request: ModelRequest, output: RoundOutput, calls: nat, execs: nat)
    requires s.service.retry.Valid() && trips <= s.service.maxToolRoundTrips
    requires request == RequestOf(s, conversation, results)
    ensures Lawful(s, conversation, persisted, trips, results, execs, Proceed(s, conversation, persisted, trips, request, output, calls, execs))
    decreases s.service.maxToolRoundTrips - trips, 0
  {
    hide Turn, Proceed, RunTools, Chained, WellFinished;
    var answer := Answer(output);
    if !RunsTools(s, output, trips) {
      var round := Round(request, Ok(output), [], execs);
      ProceedStops(s, conversation, persisted, trips, request, output, calls, execs);
      LoneRound(s, conversation, results, round);
      FinishedOne(s, persisted, round, s.service.tools.Some? && output.calls != []);
    } else {
      var ran := RunTools(s.service.tools.value, s.session.id, s.streaming, output.calls, execs);
      ProceedRunsTools(s, conversation, persisted, trips, request, output, calls, execs, ran);
      var first := Round(request, Ok(output), ran.results, execs);
      LoneRound(s, conversation, results, first);
      ToolsComplete(s.service.tools.value, s.session.id, s.streaming, output.calls, execs);
      if ran.error == None {
        RoundsLaw(s, conversation + [answer], persisted + [answer], trips + 1, ran.results, calls, execs + ran.executions);
        var rest := Turn(s, conversation + [answer], persisted + [answer], trips + 1, ran.results, calls, execs + ran.executions);
        ChainedCons(s, conversation, results, first, rest.rounds);
        if rest.outcome.Ok? {
          FinishedCons(s, persisted, first, rest.rounds, rest.outcome.value);
        }
      }
    }
  }

  /** The law of a whole turn: what is sent, what is executed, what is stored. */
  lemma WholeTurnLaw(service: Service, request: ChatTurnRequest, streaming: bool, w: World)
    requires service.retry.Valid()
    ensures var report, s := WholeTurn(service, request, streaming, w), SetupOf(service, request, streaming);
      && |report.rounds| <= service.maxToolRoundTrips + 1
      && Chained(s, Preamble(request.session, w.store.History(request.session.id)) + [UserMessage(request)], [], report.rounds)
      && (if report.outcome.Ok? then
            && report.rounds != [] && |Answers(report.rounds)| == |report.rounds|
            && !Text.IsBlank(request.userInput)
            && report.world.store.operations == w.store.operations + 2
            && report.world.store.sessions
               == w.store.sessions[request.session.id := w.store.History(request.session.id) + [UserMessage(request)] + Answers(report.rounds)]
            && var last := report.rounds[|report.rounds| - 1].answer;
              && last.Ok?
              && report.outcome.value.toolCalls == last.value.calls
              && report.outcome.value.assistantMessage == last.value.text
              && (report.outcome.value.toolRoundLimitReached <==> service.tools.Some? && last.value.calls != [])
          else
            report.world.store.sessions == w.store.sessions)
  {
    hide Turn, Validate, Chained, Answers, Text.IsBlank;
    NoRound(SetupOf(service, request, streaming), Preamble(request.session, w.store.History(request.session.id)) + [UserMessage(request)], []);
    var (store, loaded) := w.store.Load(request.session.id);
    if (streaming || !request.stream) && !Text.IsBlank(request.userInput) && loaded.Ok? {
      var s, user := SetupOf(service, request, streaming), UserMessage(request);
      var conversation := Preamble(request.session, loaded.value) + [user];
      var end := Turn(s, conversation, [user], 0, [], w.calls, w.execs);
      RoundsLaw(s, conversation, [user], 0, [], w.calls, w.execs);
      AnswersAll(end.rounds);
      var history := w.store.History(request.session.id);
      assert history + ([user] + Answers(end.rounds)) == history + [user] + Answers(end.rounds);
    }
  }

  lemma {:induction false} AnswersAll(rounds: seq<Round>)
    ensures forall i :: 0 <= i < |Answers(rounds)| ==> Answers(rounds)[i].role == Assistant
    ensures (forall i :: 0 <= i < |rounds| ==> rounds[i].answer.Ok?) ==> |Answers(rounds)| == |rounds|
  {
    if rounds != [] {
      AnswersAll(rounds[1..]);
    }
  }

  // ---- transcripts over any sequence of turns ----

  /** Blocks of one non-blank user message and one or more assistant messages; never a system prompt, never a tool message. */
  ghost predicate IsTranscript(ms: seq<Message>) {
    && (forall i :: 0 <= i < |ms| ==> ms[i].role == User || ms[i].role == Assistant)
    && (forall i :: 0 <= i < |ms| && ms[i].role == User ==>
      !Text.IsBlank(ms[i].content) && i + 1 < |ms| && ms[i + 1].role == Assistant)
    && (ms != [] ==> ms[0].role == User)
  }

  lemma TranscriptGrows(history: seq<Message>, user: Message, answers: seq<Message>)
    requires IsTranscript(history) && user.role == User && !Text.IsBlank(user.content)
    requires answers != [] && forall i :: 0 <= i < |answers| ==> answers[i].role == Assistant
    ensures IsTranscript(history + [user] + answers)
  {
    hide Text.IsBlank;
  }

  datatype TurnCall = TurnCall(request: ChatTurnRequest, streaming: bool)

  /** Any sequence of turns, of either form and over any sessions, one after the other. */
  function RunTurns(service: Service, turns: seq<TurnCall>, w: World): World
    requires service.retry.Valid()
  {
    if turns == [] then w
    else RunTurns(service, turns[1..], WholeTurn(service, turns[0].request, turns[0].streaming, w).world)
  }

  ghost predicate AllTranscripts(store: Store) {
    forall id :: id in store.sessions ==> IsTranscript(store.sessions[id])
  }

  /** Over any run, each session only grows, stays untouched unless named, and remains a transcript. */
  lemma {:induction false} TranscriptLaw(service: Service, turns: seq<TurnCall>, w: World)
    requires service.retry.Valid() && AllTranscripts(w.store)
    ensures var after := RunTurns(service, turns, w).store;
      && AllTranscripts(after)
      && (forall id :: w.store.History(id) <= after.History(id))
      && (forall id :: (forall t :: t in turns ==> t.request.session.id != id) ==> after.History(id) == w.store.History(id))
  {
    if turns != [] {
      hide WholeTurn, IsTranscript;
      var next := WholeTurn(service, turns[0].request, turns[0].streaming, w).world;
      OneTurn(service, turns[0], w);
      TranscriptLaw(service, turns[1..], next);
      var after := RunTurns(service, turns, w).store;
      forall id | forall t :: t in turns ==> t.request.session.id != id ensures after.History(id) == w.store.History(id) {
        assert turns[0] in turns;
        assert forall t :: t in turns[1..] ==> t in turns;
      }
    }
  }

  lemma OneTurn(service: Service, turn: TurnCall, w: World)
    requires service.retry.Valid() && AllTranscripts(w.store)
    ensures var after := WholeTurn(service, turn.request, turn.streaming, w).world.store;
      && AllTranscripts(after)
      && (forall id :: w.store.History(id) <= after.History(id))
      && (forall id :: id != turn.request.session.id ==> after.History(id) == w.store.History(id))
  {
    hide WholeTurn, IsTranscript, Text.IsBlank;
    var report := WholeTurn(service, turn.request, turn.streaming, w);
    WholeTurnLaw(service, turn.request, turn.streaming, w);
    AnswersAll(report.rounds);
    var history := w.store.History(turn.request.session.id);
    EmptyTranscript();
    if report.outcome.Ok? {
      TranscriptGrows(history, UserMessage(turn.request), Answers(report.rounds));
    }
  }

  lemma EmptyTranscript()
    ensures IsTranscript([])
  {
  }
}
