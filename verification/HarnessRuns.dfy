/** What one task run of fharness/src/harness.rs does, told by the turns it takes, and the laws of such runs. */
module HarnessRuns {
  import opened Wrappers
  import opened ProviderModel
  import opened MemoryModel
  import opened ChatTurn
  import opened HarnessPolicy

  const MEMORY_FAULT := HarnessError(MemoryFault, "memory operation rejected")
  const FEATURE_MISSING := HarnessError(MemoryFault, "feature not found")
  const NOT_INITIALIZED := HarnessError(NotReady, "session is not initialized; run initializer first")
  const NO_WORK := HarnessError(ValidationFault, "feature selector returned no work before required features reached passes=true")

  // ---- one feature ----

  datatype Attempt = ChatFailed(error: HarnessError) | ValidatorFailed(error: HarnessError) | Refused(message: string) | Accepted(message: string)

  /** What the whole run depends on besides the stored list. */
  datatype Context = Context(oracles: Oracles, policy: RunPolicy, request: TaskIterationRequest, objective: string)
  {
    function TurnFor(f: FeatureRecord): TurnRequest {
      TurnRequest(request.session, if request.promptOverride.Some? then Override(request.promptOverride.value) else ForFeature(f, objective), request.stream)
    }

    /** What turn number `n` comes to when it works on a feature. */
    function Judge(n: nat, f: FeatureRecord): Attempt {
      var turn := oracles.chat(n, TurnFor(f)).result;
      if turn.Err? then ChatFailed(turn.error)
      else
        var verdict := oracles.validate(n, f, turn.value);
        if verdict.Err? then ValidatorFailed(verdict.error)
        else if verdict.value then Accepted(turn.value.assistantMessage)
        else Refused(turn.value.assistantMessage)
    }

    /** Whether the `k`-th turn on a feature is the last one on it. */
    predicate Decisive(a: Attempt, k: nat) {
      || a.Accepted? || a.ValidatorFailed?
      || (a.ChatFailed? && policy.failFast.onChatError)
      || (a.Refused? && policy.failFast.onValidationFailure)
      || k >= policy.TurnsPerFeature()
    }

    /** Turns `from` to `to` (exclusive) work on the feature, and only the last of them is decisive. */
    ghost predicate WorkedOn(f: FeatureRecord, from: nat, to: nat) {
      && from < to
      && Decisive(Judge(to - 1, f), to - from)
      && forall n :: from <= n < to - 1 ==> !Decisive(Judge(n, f), n + 1 - from)
    }
  }

  /** Work on a feature ends at one turn only, within both the turn cap and the retry budget. */
  lemma WorkIsBounded(c: Context, f: FeatureRecord, from: nat, to: nat, other: nat)
    requires c.policy.Valid() && c.WorkedOn(f, from, to)
    ensures 0 < to - from <= c.policy.TurnsPerFeature() <= c.policy.maxTurnsPerRun
    ensures to - from <= c.policy.retryBudget + 1
    ensures c.WorkedOn(f, from, other) ==> other == to
  {
    var cap := c.policy.TurnsPerFeature();
    assert to - from > cap ==> c.Decisive(c.Judge(from + cap - 1, f), cap);
  }

  /** The chat's answer to turn number `n` on a feature. */
  function Chatted(c: Context, f: FeatureRecord, n: nat): Result<ChatTurnResult, HarnessError> {
    ChatAt(c, f, n).result
  }

  function ChatAt(c: Context, f: FeatureRecord, n: nat): ChatOutcome {
    var prompt := match c.request.promptOverride
      case Some(text) => Override(text)
      case None => ForFeature(f, c.objective);
    c.oracles.chat(n, TurnRequest(c.request.session, prompt, c.request.stream))
  }

  /** Turn number `n` may be followed by another: the chat failed or the validator refused, and the policy lets that pass. */
  predicate MayGoOn(c: Context, f: FeatureRecord, n: nat) {
    var chatted := Chatted(c, f, n);
    || (chatted.Err? && !c.policy.failFast.onChatError)
    || (chatted.Ok? && c.oracles.validate(n, f, chatted.value) == Ok(false) && !c.policy.failFast.onValidationFailure)
  }

  predicate WithinBudget(p: RunPolicy, turns: nat) {
    turns <= p.maxTurnsPerRun && turns <= p.retryBudget + 1
  }

  /**
   Work on a feature is told by chat, validator and the two caps alone: after each turn but the last another may follow;
   after the last none may, or the caps allow no more.
   */
  lemma WorkedOnIff(c: Context, f: FeatureRecord, from: nat, to: nat)
    requires c.policy.Valid()
    ensures c.WorkedOn(f, from, to) <==>
      && from < to && WithinBudget(c.policy, to - from)
      && (forall n :: from <= n < to - 1 ==> MayGoOn(c, f, n))
      && (MayGoOn(c, f, to - 1) ==> !WithinBudget(c.policy, to - from + 1))
  {
    hide Context.Decisive, Context.Judge, MayGoOn;
    forall n: nat | from <= n < to
      ensures c.Decisive(c.Judge(n, f), n + 1 - from) <==> !MayGoOn(c, f, n) || !WithinBudget(c.policy, n + 2 - from)
    {
      DecisiveIff(c, f, n, n + 1 - from);
    }
    if from + 1 < to && c.WorkedOn(f, from, to) {
      assert !c.Decisive(c.Judge(to - 2, f), to - 1 - from);
    }
  }

  lemma DecisiveIff(c: Context, f: FeatureRecord, n: nat, k: nat)
    ensures c.Decisive(c.Judge(n, f), k) <==> !MayGoOn(c, f, n) || !WithinBudget(c.policy, k + 1)
  {
  }

  /** A feature that is never accepted, while nothing ends the run early, takes exactly the smaller of the two caps. */
  lemma RefusedTakesAllTurns(c: Context, f: FeatureRecord, from: nat, to: nat)
    requires c.policy.Valid() && c.WorkedOn(f, from, to)
    requires forall n :: from <= n < to ==> MayGoOn(c, f, n)
    ensures to - from == if c.policy.maxTurnsPerRun <= c.policy.retryBudget + 1 then c.policy.maxTurnsPerRun else c.policy.retryBudget + 1
  {
    WorkedOnIff(c, f, from, to);
  }

  // ---- a run ----

  datatype Work = Work(feature: FeatureRecord, from: nat, to: nat)

  datatype Stop =
    | LoadRejected | MarkRejected | MarkMissed
    | NotInitialized | Unhealthy | NoWork | GaveUp
    | Unvalidated | AllDone | LimitReached
  {
    /** Whether the run ends while a feature is processed but not yet marked. */
    predicate Midway() {
      MarkRejected? || MarkMissed? || GaveUp? || Unvalidated?
    }
  }

  function Ids(works: seq<Work>): seq<string> {
    seq(|works|, i requires 0 <= i < |works| => works[i].feature.id)
  }

  function LastAttempt(c: Context, works: seq<Work>): Attempt
    requires works != []
  {
    var last := works[|works| - 1];
    if last.to == 0 then Refused("") else c.Judge(last.to - 1, last.feature)
  }

  /**
   The features worked on, in turn: each is the selector's choice from the list in which the earlier ones pass,
   each begins where the one before it ended, and all but the last were accepted.
   */
  ghost predicate Chain(c: Context, fs: seq<FeatureRecord>, from: nat, works: seq<Work>, to: nat)
    decreases |works|
  {
    if works == [] then to == from
    else
      var before, last := works[..|works| - 1], works[|works| - 1];
      var list := MarkAll(fs, Ids(before));
      && Chain(c, fs, from, before, last.from)
      && (before != [] ==> LastAttempt(c, before).Accepted?)
      && !AllPassed(list) && c.oracles.select(list) == Some(last.feature)
      && last.to == to && c.WorkedOn(last.feature, last.from, last.to)
  }

  function Validated(works: seq<Work>, stop: Stop): seq<string> {
    if stop.Midway() && works != [] then Ids(works)[..|works| - 1] else Ids(works)
  }

  /** The assistant message of the last turn, when that turn was judged. */
  function LastMessage(c: Context, works: seq<Work>): Option<string> {
    if works == [] then None
    else
      var a := LastAttempt(c, works);
      if a.Accepted? || a.Refused? then Some(a.message) else None
  }

  function LastId(works: seq<Work>): Option<string> {
    if works == [] then None else Some(works[|works| - 1].feature.id)
  }

  /** The result of a run that ends well: what it processed, what it validated and the last assistant message. */
  function Outcome(c: Context, works: seq<Work>, stop: Stop, noPending: bool): TaskIterationResult {
    TaskIterationResult(
      c.request.session, LastId(works), Ids(works), Validated(works, stop), |works|,
      !stop.Unvalidated?, noPending, c.request.stream, LastMessage(c, works))
  }

  /** What the turns on one feature left in the transcript. */
  function SaidOn(c: Context, f: FeatureRecord, from: nat, to: nat): seq<Message>
    decreases to
  {
    if to <= from then [] else SaidOn(c, f, from, to - 1) + c.oracles.chat(to - 1, c.TurnFor(f)).stored
  }

  /** What all turns of a run left in the transcript. */
  function Said(c: Context, works: seq<Work>): seq<Message> {
    if works == [] then []
    else
      var last := works[|works| - 1];
      Said(c, works[..|works| - 1]) + SaidOn(c, last.feature, last.from, last.to)
  }

  /** Every way a run of `run_task_iteration_inner` can end, with what then holds. `op` counts memory operations so far. */
  ghost predicate Ended(c: Context, before: SessionState, list: seq<FeatureRecord>, works: seq<Work>, stop: Stop, op: nat,
                        r: Result<TaskIterationResult, HarnessError>)
  {
    var accepted := works != [] ==> LastAttempt(c, works).Accepted?;
    match stop
    case LoadRejected => accepted && op > 0 && c.oracles.fault(op - 1) && r == Err(MEMORY_FAULT)
    case NotInitialized => works == [] && before.manifest == None && r == Err(NOT_INITIALIZED)
    case Unhealthy => works == [] && HealthObjection(c, before) != None && r == Err(HealthObjection(c, before).value)
    case NoWork => accepted && !AllPassed(list) && c.oracles.select(list) == None && r == Err(NO_WORK)
    case MarkRejected => works != [] && accepted && op > 0 && c.oracles.fault(op - 1) && r == Err(MEMORY_FAULT)
    case MarkMissed => works != [] && accepted && FindFeature(list, works[|works| - 1].feature.id) == None && r == Err(FEATURE_MISSING)
    case GaveUp =>
      && works != []
      && var a := LastAttempt(c, works); (a.ChatFailed? || a.ValidatorFailed?) && r == Err(a.error)
    case Unvalidated => works != [] && LastAttempt(c, works).Refused? && r == Ok(Outcome(c, works, stop, false))
    case AllDone => accepted && AllPassed(list) && r == Ok(Outcome(c, works, stop, true))
    case LimitReached => works != [] && accepted && c.policy.Limit() == Some(|works|) && r == Ok(Outcome(c, works, stop, AllPassed(list)))
  }

  /** The health check's objection, when the policy heeds it. */
  function HealthObjection(c: Context, before: SessionState): Option<HarnessError> {
    if before.manifest.Some? && c.policy.failFast.onHealthCheckError then
      c.oracles.health(c.request.session, before.manifest.value.initPlan.GetOr(DEFAULT_INIT_PLAN))
    else None
  }

  /** The law of one run between two session states and two turn counts. */
  ghost predicate RunLaw(c: Context, before: SessionState, from: nat, after: SessionState, to: nat, op: nat,
                         works: seq<Work>, stop: Stop, r: Result<TaskIterationResult, HarnessError>)
  {
    && Chain(c, before.features, from, works, to)
    && (works != [] ==> before.manifest.Some? && c.objective == before.manifest.value.currentObjective && HealthObjection(c, before) == None)
    && (c.policy.Limit().Some? ==> |works| <= c.policy.Limit().value)
    && after == before.(features := MarkAll(before.features, Validated(works, stop)), transcript := before.transcript + Said(c, works))
    && Ended(c, before, after.features, works, stop, op, r)
  }

  const DEFAULT_INIT_PLAN: seq<InitStep> := [
    Command("git", ["status", "--short", "--branch"]),
    Command("git", ["log", "--oneline", "-20"])]

  // ---- laws ----

  lemma IdsInit(works: seq<Work>)
    requires works != []
    ensures Ids(works) == Ids(works[..|works| - 1]) + [works[|works| - 1].feature.id]
    ensures Ids(works)[..|works| - 1] == Ids(works[..|works| - 1])
  {
  }

  /** A run takes at most `min(max_turns_per_run, retry_budget + 1)` turns for each feature it processes. */
  lemma {:induction false} TurnBudget(c: Context, fs: seq<FeatureRecord>, from: nat, works: seq<Work>, to: nat)
    requires c.policy.Valid() && Chain(c, fs, from, works, to)
    ensures from + |works| <= to <= from + |works| * c.policy.TurnsPerFeature()
    decreases |works|
  {
    hide MarkAll, AllPassed, Context.WorkedOn, RunPolicy.TurnsPerFeature, RunPolicy.Valid;
    if works != [] {
      var last := works[|works| - 1];
      TurnBudget(c, fs, from, works[..|works| - 1], last.from);
      WorkIsBounded(c, last.feature, last.from, last.to, last.to);
      OneMore(|works| - 1, c.policy.TurnsPerFeature());
    }
  }

  lemma OneMore(n: nat, k: nat)
    ensures (n + 1) * k == n * k + k
  {
  }

  lemma {:induction false} ChainSelects(c: Context, fs: seq<FeatureRecord>, from: nat, works: seq<Work>, to: nat)
    requires Chain(c, fs, from, works, to)
    ensures SelectedInTurn(c.oracles.select, fs, Ids(works))
    decreases |works|
  {
    if works != [] {
      hide MarkAll, SelectedInTurn, AllPassed;
      var before := works[..|works| - 1];
      ChainSelects(c, fs, from, before, works[|works| - 1].from);
      IdsInit(works);
      SelectedStep(c.oracles.select, fs, Ids(before), works[|works| - 1].feature.id);
    } else {
      assert Ids(works) == [];
    }
  }

  /**
   On every exit the stored list is the starting list with exactly the validated features passing. A good result with
   `validated` has processed what it validated; without it, one more, the selected one. `no_pending_features` is told
   exactly when every stored feature passes.
   */
  lemma HonestCompletion(c: Context, before: SessionState, from: nat, after: SessionState, to: nat, op: nat,
                         works: seq<Work>, stop: Stop, r: Result<TaskIterationResult, HarnessError>)
    requires RunLaw(c, before, from, after, to, op, works, stop, r)
    ensures r.Ok? ==> after.features == MarkAll(before.features, r.value.validatedFeatureIds)
    ensures r.Ok? && r.value.validated ==> r.value.processedFeatureIds == r.value.validatedFeatureIds
    ensures r.Ok? && !r.value.validated ==>
      r.value.selectedFeatureId.Some? && r.value.processedFeatureIds == r.value.validatedFeatureIds + [r.value.selectedFeatureId.value]
    ensures r.Ok? ==> (r.value.noPendingFeatures <==> AllPassed(after.features))
    ensures r.Ok? ==> r.value.processedFeatureCount == |r.value.processedFeatureIds|
    ensures r.Ok? && r.value.validated && !r.value.noPendingFeatures ==> c.policy.Limit() == Some(r.value.processedFeatureCount)
    ensures SelectedInTurn(c.oracles.select, before.features, Ids(works))
  {
    hide SelectedInTurn, MarkAll, AllPassed;
    ChainSelects(c, before.features, from, works, to);
    if stop.Unvalidated? {
      IdsInit(works);
    }
  }

  /** The turn that ends the work on the last feature. */
  function LastTurn(c: Context, works: seq<Work>): Result<ChatTurnResult, HarnessError>
    requires works != []
  {
    var last := works[|works| - 1];
    if last.to == 0 then Err(NO_WORK) else Chatted(c, last.feature, last.to - 1)
  }

  /** The verdict on it. */
  function LastVerdict(c: Context, works: seq<Work>): Result<bool, HarnessError>
    requires works != [] && LastTurn(c, works).Ok? && works[|works| - 1].to > 0
  {
    c.oracles.validate(works[|works| - 1].to - 1, works[|works| - 1].feature, LastTurn(c, works).value)
  }

  /**
   A good result speaks for the session and mode of its request, for the last feature worked on and its last turn; that
   turn was accepted exactly when the result is `validated`. Without work there is neither, and everything passed before.
   */
  lemma ResultTold(c: Context, before: SessionState, from: nat, after: SessionState, to: nat, op: nat,
                   works: seq<Work>, stop: Stop, result: TaskIterationResult)
    requires RunLaw(c, before, from, after, to, op, works, stop, Ok(result))
    ensures result.sessionId == c.request.session && result.usedStream == c.request.stream
    ensures |result.processedFeatureIds| == |works| && forall i :: 0 <= i < |works| ==> result.processedFeatureIds[i] == works[i].feature.id
    ensures works == [] ==>
      result.selectedFeatureId == None && result.assistantMessage == None && result.validated && result.noPendingFeatures && to == from
    ensures works != [] ==>
      && works[|works| - 1].to == to > from && result.selectedFeatureId == Some(works[|works| - 1].feature.id)
      && LastTurn(c, works).Ok? && result.assistantMessage == Some(LastTurn(c, works).value.assistantMessage)
      && LastVerdict(c, works) == Ok(result.validated)
  {
    hide MarkAll, AllPassed;
    if works != [] {
      LastWork(c, before.features, from, works, to);
    }
  }

  lemma {:induction false} LastWork(c: Context, fs: seq<FeatureRecord>, from: nat, works: seq<Work>, to: nat)
    requires Chain(c, fs, from, works, to) && works != []
    ensures from < to == works[|works| - 1].to
    decreases |works|
  {
    hide MarkAll, AllPassed;
    if |works| > 1 {
      LastWork(c, fs, from, works[..|works| - 1], works[|works| - 1].from);
    }
  }

  /** The plan whose commands the health check runs. */
  function PlanOf(manifest: SessionManifest): seq<InitStep> {
    match manifest.initPlan
    case Some(plan) => plan
    case None => [Command("git", ["status", "--short", "--branch"]), Command("git", ["log", "--oneline", "-20"])]
  }

  /** The cause of a failed run: an operation that was rejected just before, the state it found, or the last turn. */
  lemma FailureTold(c: Context, before: SessionState, from: nat, after: SessionState, to: nat, op: nat,
                    works: seq<Work>, stop: Stop, e: HarnessError)
    requires RunLaw(c, before, from, after, to, op, works, stop, Err(e))
    ensures
      || (e == MEMORY_FAULT && op > 0 && c.oracles.fault(op - 1))
      || (e == NOT_INITIALIZED && works == [] && before.manifest == None)
      || (works == [] && before.manifest.Some? && c.policy.failFast.onHealthCheckError
          && c.oracles.health(c.request.session, PlanOf(before.manifest.value)) == Some(e))
      || (e == NO_WORK && !AllPassed(after.features) && c.oracles.select(after.features) == None)
      || (e == FEATURE_MISSING && works != [] && c.oracles.select(after.features) == Some(works[|works| - 1].feature)
          && forall i :: 0 <= i < |after.features| ==> after.features[i].id != works[|works| - 1].feature.id)
      || (works != [] && LastTurn(c, works) == Err(e))
      || (works != [] && LastTurn(c, works).Ok? && works[|works| - 1].to > 0 && LastVerdict(c, works) == Err(e))
  {
    hide MarkAll, AllPassed, FindFeature;
    if works != [] {
      LastWork(c, before.features, from, works, to);
      IdsInit(works);
      var missing := FindFeature(after.features, works[|works| - 1].feature.id);
    }
  }

  /** The messages of some turns on each feature, told by the chat's answers. */
  function Stored(c: Context, f: FeatureRecord, from: nat, n: nat): seq<Message> {
    if n == 0 then [] else Stored(c, f, from, n - 1) + ChatAt(c, f, from + n - 1).stored
  }

  /** The transcript of a run grows by what the chat stored at its turns, feature by feature, and by nothing else. */
  lemma {:induction false} SaidTold(c: Context, works: seq<Work>, work: Work, n: nat)
    requires work.to == work.from + n
    ensures Said(c, []) == []
    ensures Said(c, works + [work]) == Said(c, works) + Stored(c, work.feature, work.from, n)
  {
    assert (works + [work])[..|works|] == works;
    SaidOnTold(c, work.feature, work.from, n);
  }

  lemma {:induction false} SaidOnTold(c: Context, f: FeatureRecord, from: nat, n: nat)
    ensures SaidOn(c, f, from, from + n) == Stored(c, f, from, n)
  {
    if n > 0 {
      SaidOnTold(c, f, from, n - 1);
    }
  }

  /** Only a run of an initialized session takes turns, and only when a heeded health check does not object. */
  lemma TurnsNeedHealth(c: Context, before: SessionState, from: nat, after: SessionState, to: nat, op: nat,
                        works: seq<Work>, stop: Stop, r: Result<TaskIterationResult, HarnessError>)
    requires RunLaw(c, before, from, after, to, op, works, stop, r)
    ensures to > from ==> before.manifest.Some? && c.objective == before.manifest.value.currentObjective
    ensures to > from && c.policy.failFast.onHealthCheckError ==> c.oracles.health(c.request.session, PlanOf(before.manifest.value)) == None
  {
    hide MarkAll, AllPassed, Ended;
  }

  /** The modes: strictly one feature, at most the configured number, or no limit; a good run that leaves work has used it up. */
  lemma LimitsTold(c: Context, before: SessionState, from: nat, after: SessionState, to: nat, op: nat,
                   works: seq<Work>, stop: Stop, r: Result<TaskIterationResult, HarnessError>)
    requires c.policy.Valid() && RunLaw(c, before, from, after, to, op, works, stop, r)
    ensures c.policy.mode == StrictIncremental ==> |works| <= 1
    ensures c.policy.mode == BoundedBatch ==> |works| <= c.policy.maxFeaturesPerRun
    ensures r.Ok? && r.value.validated && !AllPassed(after.features) ==>
      && c.policy.mode != UnlimitedBatch
      && |works| == if c.policy.mode == StrictIncremental then 1 else c.policy.maxFeaturesPerRun
  {
    hide MarkAll, AllPassed, Chain;
  }

  /** A run in a limited mode takes at most the per-feature budget times the feature limit. */
  lemma LimitedRunBudget(c: Context, before: SessionState, from: nat, after: SessionState, to: nat, op: nat,
                         works: seq<Work>, stop: Stop, r: Result<TaskIterationResult, HarnessError>)
    requires c.policy.Valid() && RunLaw(c, before, from, after, to, op, works, stop, r)
    ensures c.policy.Limit().Some? ==> to - from <= c.policy.Limit().value * c.policy.TurnsPerFeature()
  {
    hide Chain, MarkAll, Ended;
    TurnBudget(c, before.features, from, works, to);
    if c.policy.Limit().Some? {
      Monotone(|works|, c.policy.Limit().value, c.policy.TurnsPerFeature());
    }
  }

  lemma Monotone(a: nat, b: nat, k: nat)
    requires a <= b
    ensures a * k <= b * k
  {
  }

  /**
   With the default selector and distinct ids, a run processes the first pending features in list order, and validates
   a prefix of them that is shorter by at most one.
   */
  lemma ProcessesInOrder(c: Context, before: SessionState, from: nat, after: SessionState, to: nat, op: nat,
                         works: seq<Work>, stop: Stop, r: Result<TaskIterationResult, HarnessError>)
    requires RunLaw(c, before, from, after, to, op, works, stop, r)
    requires c.oracles.select == FirstPending && DistinctFeatureIds(before.features)
    ensures |works| <= |PendingIds(before.features)|
    ensures Ids(works) == PendingIds(before.features)[..|works|]
    ensures PendingIds(after.features) == PendingIds(before.features)[|Validated(works, stop)|..]
    ensures |works| - 1 <= |Validated(works, stop)| <= |works|
    ensures !stop.MarkMissed? && (stop.NoWork? ==> before.features == [])
  {
    hide PendingIds, MarkAll, MarkFirst, SelectedInTurn, DistinctFeatureIds, PendingAreFirst, FirstPending, Outcome, AllPassed;
    var fs, ids := before.features, Ids(works);
    ChainSelects(c, fs, from, works, to);
    ProcessedInListOrder(fs, ids);
    if stop.Midway() && works != [] {
      IdsInit(works);
      var earlier := works[..|works| - 1];
      SelectedStep(FirstPending, fs, Ids(earlier), works[|works| - 1].feature.id);
      ProcessedInListOrder(fs, Ids(earlier));
      ChoiceIsStored(MarkAll(fs, Ids(earlier)));
    }
    ChoiceIsStored(after.features);
    SameLength(fs, Validated(works, stop));
  }

  lemma SameLength(fs: seq<FeatureRecord>, ids: seq<string>)
    ensures |MarkAll(fs, ids)| == |fs|
  {
    MarkAllLaw(fs, ids);
  }

  lemma ChoiceIsStored(list: seq<FeatureRecord>)
    ensures FirstPending(list).Some? ==> FindFeature(list, FirstPending(list).value.id).Some?
    ensures FirstPending(list) == None && !AllPassed(list) ==> list == []
  {
    var at := FirstPendingIsFirst(list);
  }

  // ---- when an unlimited run ends ----

  /** Every turn goes through and validates. */
  ghost predicate AlwaysAccepts(c: Context) {
    forall n: nat, f: FeatureRecord :: c.Judge(n, f).Accepted?
  }

  /** The outer loop stops at its head: everything passes, or the selector finds no work. */
  predicate NothingLeft(c: Context, list: seq<FeatureRecord>) {
    AllPassed(list) || c.oracles.select(list) == None
  }

  /** A run is at the head of its outer loop after some features, all of them marked. */
  ghost predicate AtHead(c: Context, fs: seq<FeatureRecord>, from: nat, works: seq<Work>, to: nat) {
    Chain(c, fs, from, works, to) && (works != [] ==> LastAttempt(c, works).Accepted?)
  }

  /** With the default selector the list at the head is the one left by marking first pending features. */
  lemma {:induction false} ChainIterates(c: Context, fs: seq<FeatureRecord>, from: nat, works: seq<Work>, to: nat)
    requires Chain(c, fs, from, works, to) && c.oracles.select == FirstPending
    ensures MarkAll(fs, Ids(works)) == Iterate(fs, |works|)
    decreases |works|
  {
    hide MarkAll, MarkFirst, FirstPending, AllPassed, Iterate, Context.WorkedOn;
    IterateStep(fs, |works|);
    if works == [] {
      MarkNone(fs);
      assert Ids(works) == [];
    } else {
      var before, last := works[..|works| - 1], works[|works| - 1];
      ChainIterates(c, fs, from, before, last.from);
      IdsInit(works);
      MarkAllAppend(fs, Ids(before), last.feature.id);
    }
  }

  /** While there is work, a run in which every turn validates goes on, with one turn for each feature. */
  lemma {:induction false} RunGoesOn(c: Context, fs: seq<FeatureRecord>, from: nat, n: nat) returns (works: seq<Work>)
    requires AlwaysAccepts(c) && c.oracles.select == FirstPending
    requires forall k: nat :: k < n ==> FirstPending(Iterate(fs, k)).Some?
    ensures |works| == n && AtHead(c, fs, from, works, from + n)
  {
    hide MarkAll, MarkFirst, FirstPending, AllPassed, Iterate;
    works := [];
    if n > 0 {
      var before := RunGoesOn(c, fs, from, n - 1);
      ChainIterates(c, fs, from, before, from + (n - 1));
      var list := Iterate(fs, n - 1);
      var f := FirstPending(list).value;
      PendingMeansWork(list);
      assert c.Judge(from + n - 1, f).Accepted?;
      var last := Work(f, from + (n - 1), from + n);
      works := before + [last];
      assert works[..n - 1] == before;
    }
  }

  lemma PendingMeansWork(list: seq<FeatureRecord>)
    ensures FirstPending(list).Some? ==> !AllPassed(list)
    ensures AllPassed(list) ==> FirstPending(list) == None
  {
    var at := FirstPendingIsFirst(list);
  }

  lemma EndsAfter(c: Context, fs: seq<FeatureRecord>, from: nat, works: seq<Work>, to: nat)
    requires c.oracles.select == FirstPending && AtHead(c, fs, from, works, to)
    ensures NothingLeft(c, MarkAll(fs, Ids(works))) <==> FirstPending(Iterate(fs, |works|)) == None
  {
    hide MarkAll, FirstPending, AllPassed, Iterate, Chain;
    ChainIterates(c, fs, from, works, to);
    PendingMeansWork(Iterate(fs, |works|));
  }

  /**
   With the default selector and no feature limit, a run in which every turn validates reaches a head with nothing left
   exactly when no pending record stands behind another of its id.
   */
  lemma UnlimitedRunEndsIff(c: Context, fs: seq<FeatureRecord>, from: nat)
    requires AlwaysAccepts(c) && c.oracles.select == FirstPending
    ensures (exists works, to :: AtHead(c, fs, from, works, to) && NothingLeft(c, MarkAll(fs, Ids(works)))) <==> PendingAreFirst(fs)
  {
    hide AtHead, NothingLeft, MarkAll, Ids, FirstPending, Iterate, PendingAreFirst, AlwaysAccepts;
    IterationEndsIff(fs);
    if PendingAreFirst(fs) {
      var n := FirstEnd(fs);
      var works := RunGoesOn(c, fs, from, n);
      EndsAfter(c, fs, from, works, from + n);
    }
    if works, to :| AtHead(c, fs, from, works, to) && NothingLeft(c, MarkAll(fs, Ids(works))) {
      EndsAfter(c, fs, from, works, to);
    }
  }

  /** The number of features until nothing is pending. */
  lemma FirstEnd(fs: seq<FeatureRecord>) returns (n: nat)
    requires exists k: nat :: FirstPending(Iterate(fs, k)) == None
    ensures FirstPending(Iterate(fs, n)) == None && forall k: nat :: k < n ==> FirstPending(Iterate(fs, k)).Some?
  {
    hide FirstPending, Iterate;
    var end: nat :| FirstPending(Iterate(fs, end)) == None;
    n := 0;
    while FirstPending(Iterate(fs, n)).Some?
      invariant n <= end && forall k: nat :: k < n ==> FirstPending(Iterate(fs, k)).Some?
      decreases end - n
    {
      n := n + 1;
    }
  }

  /** Otherwise it goes on for ever: for every number there is a head after that many features, with work left. */
  lemma ShadowedRunGoesOn(c: Context, fs: seq<FeatureRecord>, from: nat, n: nat) returns (works: seq<Work>)
    requires AlwaysAccepts(c) && c.oracles.select == FirstPending && !PendingAreFirst(fs)
    ensures |works| == n && AtHead(c, fs, from, works, from + n) && !NothingLeft(c, MarkAll(fs, Ids(works)))
  {
    hide AtHead, NothingLeft, MarkAll, Ids, FirstPending, Iterate, PendingAreFirst, AlwaysAccepts;
    IterationEndsIff(fs);
    works := RunGoesOn(c, fs, from, n);
    EndsAfter(c, fs, from, works, from + n);
  }

  const SHADOWED: seq<FeatureRecord> := [FeatureRecord("a", "", "first", ["step"], true), FeatureRecord("a", "", "second", ["step"], false)]

  /** A passing feature before a pending one of the same id: the run marks the first for ever. */
  lemma ShadowedListNeverEnds(c: Context, from: nat, works: seq<Work>, to: nat)
    requires AlwaysAccepts(c) && c.oracles.select == FirstPending
    requires AtHead(c, SHADOWED, from, works, to)
    ensures !NothingLeft(c, MarkAll(SHADOWED, Ids(works)))
  {
    hide AtHead, NothingLeft, MarkAll, Ids, FirstPending, AlwaysAccepts;
    assert !SHADOWED[1].passes && SHADOWED[0].id == SHADOWED[1].id;
    assert !PendingAreFirst(SHADOWED);
    UnlimitedRunEndsIff(c, SHADOWED, from);
  }
}
