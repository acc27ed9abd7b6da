/**
 The language of `stream_turn`: which events may follow which, and where the store append and the
 tool executions fall among them. The language is given by an automaton; a failing turn leaves it in
 a state from which the word can still be completed.
 */
module TurnGrammar {
  import opened Wrappers
  import opened ProviderModel
  import opened Retry
  import opened ChatTurn
  import Text

  datatype Phase =
    | Opened                                  // nothing happened yet
    | Asking                                  // attempts to open the provider's stream
    | Reading                                 // provider events of this round
    | Started(call: ToolCall)
    | Ran(call: ToolCall)
    | ToolDone
    | Limited(pending: nat)
    | Saved(warned: Option<nat>, text: string) // the messages are in the store
    | Completed
    | Broken

  function Next(p: Phase, act: Act, maxRoundTrips: nat): Phase {
    match act
    case Hooked(_) => if p.Opened? || p.Asking? || p.ToolDone? then Asking else Broken
    case Executed(c) => if p == Started(c) then Ran(c) else Broken
    case Stored(ms) =>
      if (p.Asking? || p.Reading? || p.Limited?) && ms != [] then
        Saved(if p.Limited? then Some(p.pending) else None, ms[|ms| - 1].content)
      else Broken
    case Emitted(e) =>
      match e
      case TextChunk(_) => if p.Asking? || p.Reading? then Reading else Broken
      case ToolCallChunk(_) => if p.Asking? || p.Reading? then Reading else Broken
      case AssistantMessageComplete(_) => if p.Asking? || p.Reading? then Reading else Broken
      case ToolExecutionStarted(c) => if p.Asking? || p.Reading? || p.ToolDone? then Started(c) else Broken
      case ToolExecutionFinished(c) => if p == Ran(c) then ToolDone else Broken
      case ToolRoundLimitReached(m, pending) =>
        if (p.Asking? || p.Reading?) && m == maxRoundTrips && pending > 0 then Limited(pending) else Broken
      case TurnComplete(r) =>
        if p.Saved? && r.toolRoundLimitReached == p.warned.Some? && r.assistantMessage == p.text
           && (p.warned.Some? ==> p.warned.value == |r.toolCalls|)
        then Completed else Broken
  }

  function Follow(p: Phase, log: seq<Act>, maxRoundTrips: nat): Phase
    decreases |log|
  {
    if log == [] then p else Follow(Next(p, log[0], maxRoundTrips), log[1..], maxRoundTrips)
  }

  lemma {:induction false} FollowAppend(p: Phase, a: seq<Act>, b: seq<Act>, m: nat)
    ensures Follow(p, a + b, m) == Follow(Follow(p, a, m), b, m)
    decreases |a|
  {
    if a == [] {
      assert a + b == b;
    } else {
      hide Next;
      assert (a + b)[1..] == a[1..] + b;
      FollowAppend(Next(p, a[0], m), a[1..], b, m);
    }
  }

  lemma FollowOne(p: Phase, act: Act, m: nat)
    ensures Follow(p, [act], m) == Next(p, act, m)
  {
    assert [act][1..] == [];
  }

  lemma {:induction false} FollowHooks(p: Phase, hooks: seq<HookEvent>, m: nat)
    requires hooks != [] && (p.Opened? || p.Asking? || p.ToolDone?)
    ensures Follow(p, Hooks(hooks), m) == Asking
    decreases |hooks|
  {
    assert Hooks(hooks)[1..] == Hooks(hooks[1..]);
    if |hooks| > 1 {
      FollowHooks(Asking, hooks[1..], m);
    } else {
      assert Hooks(hooks[1..]) == [];
    }
  }

  predicate IsProviderEvent(e: ChatEvent) {
    e.TextChunk? || e.ToolCallChunk? || e.AssistantMessageComplete?
  }

  lemma {:induction false} FollowProviderEvents(p: Phase, events: seq<ChatEvent>, m: nat)
    requires p.Asking? || p.Reading?
    requires forall i :: 0 <= i < |events| ==> IsProviderEvent(events[i])
    ensures var q := Follow(p, Emits(events), m); q.Asking? || q.Reading?
    decreases |events|
  {
    if events != [] {
      assert Emits(events)[1..] == Emits(events[1..]);
      FollowProviderEvents(Reading, events[1..], m);
    }
  }

  lemma {:induction false} DrainedEvents(g: Gathered, items: StreamItems)
    ensures forall i :: 0 <= i < |Drain(g, items).events| ==> IsProviderEvent(Drain(g, items).events[i])
    decreases |items|
  {
    if items != [] && items[0].Ok? {
      DrainedEvents(Gather(g, items[0].value), items[1..]);
    }
  }

  lemma FollowAsked(p: Phase, service: Service, calls: nat, request: ModelRequest, m: nat)
    requires service.retry.Valid() && (p.Opened? || p.ToolDone?)
    ensures var asked := Ask(service, true, calls, request);
      var q := Follow(p, Hooks(asked.hooks) + Emits(asked.events), m);
      q.Asking? || q.Reading?
  {
    hide Hooks, Emits;
    var asked := Ask(service, true, calls, request);
    FollowAppend(p, Hooks(asked.hooks), Emits(asked.events), m);
    FollowHooks(p, asked.hooks, m);
    var outcome := StreamOutcome(service, calls, request);
    var n := StopAttempt(service.retry, outcome, 1);
    if outcome(n).Ok? {
      DrainedEvents(NOTHING, outcome(n).value);
    }
    FollowProviderEvents(Asking, asked.events, m);
  }

  /** The phase after a tool loop: between calls, or at the call that failed. */
  lemma {:induction false} FollowTools(p: Phase, tools: ToolRuntime, id: SessionId, calls: seq<ToolCall>, execs: nat, m: nat)
    requires p.ToolDone? || (calls != [] && (p.Asking? || p.Reading?))
    ensures var ran := RunTools(tools, id, true, calls, execs);
      var q := Follow(p, ran.log, m);
      if ran.error == None then q.ToolDone? else q.Ran?
    decreases |calls|
  {
    if calls != [] {
      var c := calls[0];
      var start, finish := ToolStartActs(true, c), [Emitted(ToolExecutionFinished(c))];
      FollowStart(p, c, m);
      if tools(execs, c, id).Ok? {
        var rest := RunTools(tools, id, true, calls[1..], execs + 1);
        hide RunTools, Next, ToolStartActs;
        FollowAppend(p, start + finish, rest.log, m);
        FollowAppend(p, start, finish, m);
        FollowFinish(c, m);
        FollowTools(ToolDone, tools, id, calls[1..], execs + 1, m);
      }
    }
  }

  lemma FollowStart(p: Phase, c: ToolCall, m: nat)
    requires p.ToolDone? || p.Asking? || p.Reading?
    ensures Follow(p, ToolStartActs(true, c), m) == Ran(c)
  {
    assert ToolStartActs(true, c)[1..] == [Executed(c)];
    FollowOne(Started(c), Executed(c), m);
  }

  lemma FollowFinish(c: ToolCall, m: nat)
    ensures Follow(Ran(c), [Emitted(ToolExecutionFinished(c))], m) == ToolDone
  {
    FollowOne(Ran(c), Emitted(ToolExecutionFinished(c)), m);
  }

  /** Where the rounds of a turn leave the automaton. */
  ghost predicate Leaves(end: TurnEnd, q: Phase) {
    match end.outcome
    case Err(_) => q.Opened? || q.Asking? || q.Reading? || q.Ran? || q.ToolDone?
    case Ok(f) =>
      && f.persisted != [] && f.persisted[|f.persisted| - 1] == Answer(f.output)
      && if f.limitReached then q == Limited(|f.output.calls|) else q.Asking? || q.Reading?
  }

  lemma {:induction false} RoundsFollow(p: Phase, s: Setup, conversation: seq<Message>, persisted: seq<Message>, trips: nat, results: seq<ToolResult>, calls: nat, execs: nat)
    requires s.service.retry.Valid() && s.streaming && (p.Opened? || p.ToolDone?)
    ensures var end := Turn(s, conversation, persisted, trips, results, calls, execs);
      Leaves(end, Follow(p, end.log, s.service.maxToolRoundTrips))
    decreases if trips < s.service.maxToolRoundTrips then s.service.maxToolRoundTrips - trips else 0, 1
  {
    hide Turn, Proceed, Ask, Hooks, Emits, Validate, Next, Follow, BuildRequest, RequestOf;
    var m := s.service.maxToolRoundTrips;
    var built := BuildRequest(s, conversation, results);
    if built.Err? {
      TurnRejected(s, conversation, persisted, trips, results, calls, execs);
      FollowNothing(p, m);
    } else {
      var request := built.value;
      var asked := Ask(s.service, true, calls, request);
      var log := Hooks(asked.hooks) + Emits(asked.events);
      TurnAsks(s, conversation, persisted, trips, results, calls, execs, request, asked);
      FollowAsked(p, s.service, calls, request, m);
      if asked.answer.Ok? {
        var q := Follow(p, log, m);
        var end := Proceed(s, conversation, persisted, trips, request, asked.answer.value, calls + asked.attempts, execs);
        ProceedFollows(q, s, conversation, persisted, trips, request, asked.answer.value, calls + asked.attempts, execs);
        FollowAppend(p, log, end.log, m);
      }
    }
  }

  lemma FollowNothing(p: Phase, m: nat)
    ensures Follow(p, [], m) == p
  {
  }

  lemma {:induction false} ProceedFollows(q: Phase, s: Setup, conversation: seq<Message>, persisted: seq<Message>, trips: nat,
                                          request: ModelRequest, output: RoundOutput, calls: nat, execs: nat)
    requires s.service.retry.Valid() && s.streaming && (q.Asking? || q.Reading?)
    ensures var end := Proceed(s, conversation, persisted, trips, request, output, calls, execs);
      Leaves(end, Follow(q, end.log, s.service.maxToolRoundTrips))
    decreases if trips < s.service.maxToolRoundTrips then s.service.maxToolRoundTrips - trips else 0, 0
  {
    hide Turn, Proceed, RunTools, Follow;
    var m, answer := s.service.maxToolRoundTrips, Answer(output);
    if !RunsTools(s, output, trips) {
      ProceedStops(s, conversation, persisted, trips, request, output, calls, execs);
      FollowNothing(q, m);
      FollowOne(q, Emitted(ToolRoundLimitReached(m, |output.calls|)), m);
    } else {
      var ran := RunTools(s.service.tools.value, s.session.id, true, output.calls, execs);
      ProceedRunsTools(s, conversation, persisted, trips, request, output, calls, execs, ran);
      FollowTools(q, s.service.tools.value, s.session.id, output.calls, execs, m);
      if ran.error == None {
        var rest := Turn(s, conversation + [answer], persisted + [answer], trips + 1, ran.results, calls, execs + ran.executions);
        RoundsFollow(ToolDone, s, conversation + [answer], persisted + [answer], trips + 1, ran.results, calls, execs + ran.executions);
        FollowAppend(q, ran.log, rest.log, m);
      }
    }
  }

  /** A streamed turn succeeds exactly when its log is a complete word; otherwise its log is a prefix of one. */
  lemma StreamGrammar(service: Service, request: ChatTurnRequest, w: World)
    requires service.retry.Valid()
    ensures var report := WholeTurn(service, request, true, w);
      var q := Follow(Opened, report.log, service.maxToolRoundTrips);
      && !q.Broken?
      && (report.outcome.Ok? <==> q.Completed?)
      && (report.outcome.Err? ==> !q.Saved? && exists rest :: Follow(Opened, report.log + rest, service.maxToolRoundTrips).Completed?)
  {
    var m := service.maxToolRoundTrips;
    var report := WholeTurn(service, request, true, w);
    var (store, loaded) := w.store.Load(request.session.id);
    if !Text.IsBlank(request.userInput) && loaded.Ok? {
      var s, user := SetupOf(service, request, true), UserMessage(request);
      var conversation := Preamble(request.session, loaded.value) + [user];
      var end := Turn(s, conversation, [user], 0, [], w.calls, w.execs);
      RoundsFollow(Opened, s, conversation, [user], 0, [], w.calls, w.execs);
      hide Turn, Follow, WholeTurn;
      assert report == Concluded(s, store, end) by { WholeTurnIs(service, request, true, w); }
      if report.outcome.Ok? {
        ConcludedFollows(s, store, end, m);
      }
    } else {
      WholeTurnIs(service, request, true, w);
      FollowNothing(Opened, m);
    }
    if report.outcome.Err? {
      var q := Follow(Opened, report.log, m);
      assert q.Opened? || q.Asking? || q.Reading? || q.Ran? || q.ToolDone? || q.Limited?;
      var rest := Completion(q, m);
      FollowAppend(Opened, report.log, rest, m);
    }
  }

  lemma WholeTurnIs(service: Service, request: ChatTurnRequest, streaming: bool, w: World)
    requires service.retry.Valid() && (streaming || !request.stream)
    ensures var (store, loaded) := w.store.Load(request.session.id);
      var report := WholeTurn(service, request, streaming, w);
      if Text.IsBlank(request.userInput) || loaded.Err? then
        report.log == [] && report.rounds == [] && report.outcome.Err?
      else
        var s, user := SetupOf(service, request, streaming), UserMessage(request);
        report == Concluded(s, store, Turn(s, Preamble(request.session, loaded.value) + [user], [user], 0, [], w.calls, w.execs))
  {
    hide Turn;
  }

  lemma ConcludedFollows(s: Setup, store: Store, end: TurnEnd, m: nat)
    requires s.streaming && m == s.service.maxToolRoundTrips
    requires Leaves(end, Follow(Opened, end.log, m)) && Concluded(s, store, end).outcome.Ok?
    ensures Follow(Opened, Concluded(s, store, end).log, m).Completed?
  {
    hide Follow;
    var finish := end.outcome.value;
    var saved, done := Stored(finish.persisted), Emitted(TurnComplete(ResultOf(s, finish)));
    FollowAppend(Opened, end.log, [saved], m);
    FollowAppend(Opened, end.log + [saved], [done], m);
    var q := Follow(Opened, end.log, m);
    FollowOne(q, saved, m);
    FollowOne(Next(q, saved, m), done, m);
  }

  /** Steps from a phase to one in which the messages may be stored. */
  function Distance(q: Phase): nat {
    match q
    case Started(_) => 4
    case Ran(_) => 3
    case ToolDone => 2
    case Opened => 1
    case _ => 0
  }

  /** Every phase a failing turn can stop in has a completion. */
  lemma {:induction false} Completion(q: Phase, m: nat) returns (rest: seq<Act>)
    requires !q.Broken? && !q.Saved? && !q.Completed?
    ensures Follow(q, rest, m).Completed?
    decreases Distance(q)
  {
    if Distance(q) > 0 {
      var request := Hooked(AttemptStart(1));
      var act := if q.Started? then Executed(q.call) else if q.Ran? then Emitted(ToolExecutionFinished(q.call)) else request;
      var tail := Completion(Next(q, act, m), m);
      FollowOne(q, act, m);
      FollowAppend(q, [act], tail, m);
      rest := [act] + tail;
    } else {
      var saved := Stored([Message(Assistant, "")]);
      var calls := if q.Limited? then seq(q.pending, _ => ToolCall("", "", "")) else [];
      var done := Emitted(TurnComplete(ChatTurnResult([], "", calls, Other, NO_USAGE, q.Limited?)));
      FollowOne(q, saved, m);
      FollowOne(Next(q, saved, m), done, m);
      FollowAppend(q, [saved], [done], m);
      rest := [saved] + [done];
    }
  }

  // ---- what the grammar says of a log and of the events in it ----

  predicate IsCompletion(act: Act) {
    act.Emitted? && act.event.TurnComplete?
  }

  predicate IsWarning(act: Act) {
    act.Emitted? && act.event.ToolRoundLimitReached?
  }

  lemma {:induction false} FollowBroken(log: seq<Act>, m: nat)
    ensures Follow(Broken, log, m) == Broken
    decreases |log|
  {
    if log != [] {
      FollowBroken(log[1..], m);
    }
  }

  lemma PrefixUnbroken(log: seq<Act>, k: nat, m: nat)
    requires k <= |log| && !Follow(Opened, log, m).Broken?
    ensures !Follow(Opened, log[..k], m).Broken?
  {
    hide Follow;
    FollowAppend(Opened, log[..k], log[k..], m);
    assert log == log[..k] + log[k..];
    FollowBroken(log[k..], m);
  }

  /** The last act of an unbroken log tells whether the messages were stored, a warning given or the turn completed. */
  lemma PhaseTells(log: seq<Act>, m: nat)
    requires !Follow(Opened, log, m).Broken?
    ensures var q := Follow(Opened, log, m);
      && (q.Saved? <==> log != [] && log[|log| - 1].Stored?)
      && (q.Completed? <==> log != [] && IsCompletion(log[|log| - 1]))
      && (q.Limited? <==> log != [] && IsWarning(log[|log| - 1]))
  {
    hide Follow;
    if log == [] {
      FollowNothing(Opened, m);
    } else {
      var n := |log| - 1;
      assert log == log[..n] + [log[n]];
      FollowAppend(Opened, log[..n], [log[n]], m);
      FollowOne(Follow(Opened, log[..n], m), log[n], m);
    }
  }

  lemma Neighbours(log: seq<Act>, i: nat, m: nat)
    requires !Follow(Opened, log, m).Broken? && i + 1 < |log|
    ensures !IsCompletion(log[i])
    ensures log[i].Stored? <==> IsCompletion(log[i + 1])
    ensures IsWarning(log[i]) ==> log[i + 1].Stored?
  {
    hide Follow;
    PrefixUnbroken(log, i + 1, m);
    PrefixUnbroken(log, i + 2, m);
    PhaseTells(log[..i + 1], m);
    var q := Follow(Opened, log[..i + 1], m);
    assert log[..i + 2] == log[..i + 1] + [log[i + 1]];
    FollowAppend(Opened, log[..i + 1], [log[i + 1]], m);
    FollowOne(q, log[i + 1], m);
  }

  /** A completion is last and follows an append, an append is last or next to it, a warning is last or right before the append. */
  lemma WordShape(log: seq<Act>, i: nat, m: nat)
    requires !Follow(Opened, log, m).Broken? && i < |log|
    ensures IsCompletion(log[i]) ==> i == |log| - 1 && i > 0 && log[i - 1].Stored?
    ensures log[i].Stored? ==> i == |log| - 1 || (i == |log| - 2 && IsCompletion(log[i + 1]))
    ensures IsWarning(log[i]) ==> i == |log| - 1 || log[i + 1].Stored?
  {
    hide Follow, IsCompletion, IsWarning;
    if i + 1 < |log| {
      Neighbours(log, i, m);
    }
    if i + 2 < |log| {
      Neighbours(log, i + 1, m);
    }
    if i > 0 {
      Neighbours(log, i - 1, m);
    } else {
      PrefixUnbroken(log, 1, m);
      assert log[..1] == [log[0]];
      if IsCompletion(log[0]) {
        FirstAct(log[0], m);
      }
    }
  }

  lemma FirstAct(act: Act, m: nat)
    requires IsCompletion(act)
    ensures Follow(Opened, [act], m).Broken?
  {
    FollowOne(Opened, act, m);
  }

  lemma {:induction false} SeenIsEmitted(log: seq<Act>, i: nat) returns (k: nat)
    requires i < |EventsOf(log)|
    ensures k < |log| && log[k] == Emitted(EventsOf(log)[i])
    decreases |log|
  {
    if log[0].Emitted? && i == 0 {
      k := 0;
    } else {
      k := SeenIsEmitted(log[1..], if log[0].Emitted? then i - 1 else i);
      k := k + 1;
    }
  }

  /** Events of a log without completions, in which a warning can only be the last act. */
  lemma WarningIsLast(log: seq<Act>)
    requires forall i :: 0 <= i < |log| ==> !IsCompletion(log[i]) && (IsWarning(log[i]) ==> i == |log| - 1)
    ensures var events := EventsOf(log);
      forall i :: 0 <= i < |events| ==> !events[i].TurnComplete? && (events[i].ToolRoundLimitReached? ==> i == |events| - 1)
  {
    hide EventsOf;
    var events := EventsOf(log);
    if log == [] {
      EventsOfNothing();
    } else {
      var init, last := log[..|log| - 1], log[|log| - 1];
      assert log == init + [last];
      EventsOfAppend(init, [last]);
      EventsOfSingle(last);
      forall i: nat | i < |EventsOf(init)| ensures !EventsOf(init)[i].TurnComplete? && !EventsOf(init)[i].ToolRoundLimitReached? {
        var k := SeenIsEmitted(init, i);
        assert init[k] == log[k];
      }
    }
  }

  lemma EventsOfSingle(act: Act)
    ensures EventsOf([act]) == Visible(act)
  {
    assert [act][1..] == [];
  }

  /**
   The log of a turn that succeeds ends with the one append and the one completion, which carries the result; that of a
   turn that fails holds neither. A warning stands at most right before the append, or last in a failing log. So it is
   with the events a consumer sees.
   */
  lemma StreamedEvents(service: Service, request: ChatTurnRequest, w: World)
    requires service.retry.Valid()
    ensures var report := WholeTurn(service, request, true, w);
      var log, n := report.log, |report.log|;
      if report.outcome.Ok? then
        && n >= 2 && log[n - 1] == Emitted(TurnComplete(report.outcome.value)) && log[n - 2].Stored?
        && forall i :: 0 <= i < n - 2 ==> !log[i].Stored? && !IsCompletion(log[i]) && (IsWarning(log[i]) ==> i == n - 3)
      else
        forall i :: 0 <= i < n ==> !log[i].Stored? && !IsCompletion(log[i]) && (IsWarning(log[i]) ==> i == n - 1)
    ensures var report := WholeTurn(service, request, true, w);
      var events, n := EventsOf(report.log), |EventsOf(report.log)|;
      if report.outcome.Ok? then
        && n >= 1 && events[n - 1] == TurnComplete(report.outcome.value)
        && forall i :: 0 <= i < n - 1 ==> !events[i].TurnComplete? && (events[i].ToolRoundLimitReached? ==> i == n - 2)
      else
        forall i :: 0 <= i < n ==> !events[i].TurnComplete? && (events[i].ToolRoundLimitReached? ==> i == n - 1)
  {
    hide WholeTurn, Follow, EventsOf, IsCompletion, IsWarning;
    var report, m := WholeTurn(service, request, true, w), service.maxToolRoundTrips;
    StreamGrammar(service, request, w);
    PhaseTells(report.log, m);
    var log, n := report.log, |report.log|;
    if report.outcome.Ok? {
      CompletionCarriesResult(service, request, w);
      var init := log[..n - 2];
      forall i: nat | i < n - 2 ensures !log[i].Stored? && !IsCompletion(log[i]) && (IsWarning(log[i]) ==> i == n - 3) {
        WordShape(log, i, m);
        WordShape(log, i + 1, m);
      }
      assert log == init + [log[n - 2]] + [log[n - 1]];
      EventsOfAppend(init + [log[n - 2]], [log[n - 1]]);
      EventsOfAppend(init, [log[n - 2]]);
      EventsOfSingle(log[n - 2]);
      EventsOfSingle(log[n - 1]);
      assert forall i :: 0 <= i < n - 2 ==> init[i] == log[i];
      WarningIsLast(init);
      assert EventsOf(log) == EventsOf(init) + [] + [TurnComplete(report.outcome.value)];
    } else {
      forall i: nat | i < n ensures !log[i].Stored? && !IsCompletion(log[i]) && (IsWarning(log[i]) ==> i == n - 1) {
        WordShape(log, i, m);
        if i + 1 < n {
          WordShape(log, i + 1, m);
        }
      }
      WarningIsLast(log);
    }
  }

  lemma CompletionCarriesResult(service: Service, request: ChatTurnRequest, w: World)
    requires service.retry.Valid() && WholeTurn(service, request, true, w).outcome.Ok?
    ensures var report := WholeTurn(service, request, true, w);
      |report.log| >= 2 && report.log[|report.log| - 1] == Emitted(TurnComplete(report.outcome.value)) && report.log[|report.log| - 2].Stored?
  {
    hide Turn;
    WholeTurnIs(service, request, true, w);
  }
}
