/**
 Sequences of runs of fharness/src/harness.rs, told by the requests, the stored sessions and the answers of chat, validator
 and memory: what a run that ends well did, why one failed, and in which order the phases come.
 */
module HarnessHistory {
  import opened Wrappers
  import opened ProviderModel
  import opened MemoryModel
  import opened ChatTurn
  import opened HarnessPolicy
  import opened HarnessRuns
  import opened Harness
  import Text

  type Outcomes = seq<Result<RuntimeRunOutcome, HarnessError>>

  /** The session of the `i`-th request before run number `k`. */
  function Seen(requests: seq<RuntimeRunRequest>, stages: seq<Stage>, i: nat, k: nat): SessionState
    requires i < |requests| && k < |stages|
  {
    StateIn(stages[k].sessions, requests[i].session)
  }

  /** The turns between two counts that were accepted, told by chat and validator. */
  ghost predicate AcceptedAt(c: Context, id: string, from: nat, to: nat) {
    exists n: nat, f: FeatureRecord :: from <= n < to && f.id == id && AcceptedTurn(c, f, n)
  }

  predicate AcceptedTurn(c: Context, f: FeatureRecord, n: nat) {
    Chatted(c, f, n).Ok? && c.oracles.validate(n, f, Chatted(c, f, n).value) == Ok(true)
  }

  /** Everything that a run works on before its last feature, and that too when it is marked, was accepted at a turn of its own. */
  lemma {:induction false} ChainAccepts(c: Context, fs: seq<FeatureRecord>, from: nat, works: seq<Work>, to: nat, k: nat)
    requires Chain(c, fs, from, works, to) && k < |works|
    requires k + 1 < |works| || LastAttempt(c, works).Accepted?
    ensures from <= works[k].from < works[k].to <= to && AcceptedTurn(c, works[k].feature, works[k].to - 1)
    decreases |works|
  {
    hide MarkAll, AllPassed;
    var before := works[..|works| - 1];
    LastWork(c, fs, from, works, to);
    if k + 1 == |works| {
      NotBefore(c, fs, from, before, works[k].from);
    } else {
      ChainAccepts(c, fs, from, before, works[|works| - 1].from, k);
    }
  }

  lemma NotBefore(c: Context, fs: seq<FeatureRecord>, from: nat, works: seq<Work>, to: nat)
    requires Chain(c, fs, from, works, to)
    ensures from <= to
  {
    if works != [] {
      LastWork(c, fs, from, works, to);
    }
  }

  /** Whatever a run ends with, an id it validated was accepted at one of its turns. */
  lemma ValidatedWasAccepted(c: Context, before: SessionState, from: nat, after: SessionState, to: nat, op: nat,
                             works: seq<Work>, stop: Stop, r: Result<TaskIterationResult, HarnessError>, id: string)
    requires RunLaw(c, before, from, after, to, op, works, stop, r) && id in Validated(works, stop)
    ensures AcceptedAt(c, id, from, to)
  {
    hide MarkAll, AllPassed, Chain, Outcome, Chatted, AcceptedTurn, FindFeature;
    var k: nat :| k < |Validated(works, stop)| && Validated(works, stop)[k] == id;
    assert works[k].feature.id == id;
    ChainAccepts(c, before.features, from, works, to, k);
  }

  /**
   A task run that ends well, anywhere in a sequence: a chat service is there and the session was initialized. Exactly the
   ids it reports as validated were marked, each accepted at a turn of this run; nothing pending is reported exactly when
   every stored feature passes; and the records of the run stand behind those before it.
   */
  lemma IteratedRun(g: Setting, requests: seq<RuntimeRunRequest>, stages: seq<Stage>, results: Outcomes, i: nat, t: TaskIterationResult)
    requires History(g, requests, stages, results) && i < |requests| && results[i] == Ok(Iterated(t))
    ensures var before, after, task := Seen(requests, stages, i, i), Seen(requests, stages, i, i + 1), requests[i];
      && g.hasChat && before.manifest.Some? && after.manifest == before.manifest
      && after.features == MarkAll(before.features, t.validatedFeatureIds)
      && (t.noPendingFeatures <==> AllPassed(after.features))
      && t.sessionId == task.session && t.usedStream == task.stream
      && (stages[i + 1].at.turns == stages[i].at.turns ==> t.processedFeatureIds == [] && AllPassed(before.features))
      && before.transcript <= after.transcript
      && |after.checkpoints| == |before.checkpoints| + 2 && before.checkpoints <= after.checkpoints
      && after.checkpoints[|before.checkpoints| + 1].status == (if t.validated then Succeeded else RunFailed)
      && |after.progress| == |before.progress| + 1 && before.progress <= after.progress
      && after.progress[|before.progress|].runId == task.runId
    ensures var c := Context(g.oracles, g.policy, TaskIterationRequest(requests[i].session, requests[i].runId, requests[i].stream, requests[i].promptOverride),
                             Seen(requests, stages, i, i).manifest.value.currentObjective);
      && (t.validated <==> t.processedFeatureIds == t.validatedFeatureIds)
      && forall id :: id in t.validatedFeatureIds ==> AcceptedAt(c, id, stages[i].at.turns, stages[i + 1].at.turns)
  {
    hide MarkAll, AllPassed, RunLaw, HandedOff, AcceptedAt, Chain, FindFeature, Validated, InitializerLaw;
    var before, after, run := Seen(requests, stages, i, i), Seen(requests, stages, i, i + 1), stages[i].run;
    assert StageLaw(g, requests[i], stages[i], stages[i + 1], results[i]);
    var task := TaskIterationRequest(requests[i].session, requests[i].runId, requests[i].stream, requests[i].promptOverride);
    var at, to := stages[i].at, stages[i + 1].at;
    assert TaskLaw(g, task, before, at.(operations := at.operations + 1), after, to, run, Ok(t));
    TaskRunTold(g, task, before, at.(operations := at.operations + 1), after, to, run, t);
  }

  lemma TaskRunTold(g: Setting, task: TaskIterationRequest, before: SessionState, at: Counters, after: SessionState, to: Counters, run: TaskRun, t: TaskIterationResult)
    requires before.manifest.Some? && TaskLaw(g, task, before, at, after, to, run, Ok(t))
    ensures g.hasChat && after.manifest == before.manifest
    ensures after.features == MarkAll(before.features, t.validatedFeatureIds)
    ensures t.noPendingFeatures <==> AllPassed(after.features)
    ensures t.sessionId == task.session && t.usedStream == task.stream
    ensures to.turns == at.turns ==> t.processedFeatureIds == [] && AllPassed(before.features)
    ensures before.transcript <= after.transcript
    ensures |after.checkpoints| == |before.checkpoints| + 2 && before.checkpoints <= after.checkpoints
    ensures after.checkpoints[|before.checkpoints| + 1].status == (if t.validated then Succeeded else RunFailed)
    ensures |after.progress| == |before.progress| + 1 && before.progress <= after.progress
    ensures after.progress[|before.progress|].runId == task.runId
    ensures t.validated <==> t.processedFeatureIds == t.validatedFeatureIds
    ensures var c := Context(g.oracles, g.policy, task, before.manifest.value.currentObjective);
      forall id :: id in t.validatedFeatureIds ==> AcceptedAt(c, id, at.turns, to.turns)
  {
    hide MarkAll, AllPassed, AcceptedAt, Chain, FindFeature, Validated;
    var c := Context(g.oracles, g.policy, task, run.objective);
    var framed := before.(checkpoints := before.checkpoints + [RunCheckpoint(task.runId, g.oracles.clock(at.ticks + 1), None, InProgress, None)]);
    var status := HandoffLaw(c, before, at.turns, at.ticks, after, to.turns, run, Ok(t));
    HonestCompletion(c, framed, at.turns, run.left, to.turns, run.op, run.works, run.stop, run.result);
    ResultTold(c, framed, at.turns, run.left, to.turns, run.op, run.works, run.stop, t);
    assert t.validatedFeatureIds == Validated(run.works, run.stop);
    forall id | id in t.validatedFeatureIds ensures run.works != [] && AcceptedAt(c, id, at.turns, to.turns) {
      ValidatedWasAccepted(c, framed, at.turns, run.left, to.turns, run.op, run.works, run.stop, run.result, id);
    }
    MarkNone(before.features);
    assert run.works == [] ==> t.validatedFeatureIds == [];
  }

  /** The feature list an initializer is to store. */
  function Wanted(request: RuntimeRunRequest): seq<FeatureRecord> {
    match |request.featureList|
    case 0 => StarterFeatureList(request.currentObjective)
    case _ => request.featureList
  }

  /** The entry of an initializer: the summary asked for, the fixed one when none is given, and the objective when it is blank. */
  function SummaryOf(request: RuntimeRunRequest): string {
    match request.progressSummary
    case None => "Initializer scaffold created"
    case Some(text) => if Text.IsBlank(text) then "Initializer scaffold created for objective: " + request.currentObjective else text
  }

  lemma FixedSummaryIsNotBlank()
    ensures !Text.IsBlank("Initializer scaffold created")
  {
    Text.BlankIff("Initializer scaffold created");
    assert "Initializer scaffold created"[0] == 'I';
  }

  /**
   An initializer that ends well, anywhere in a sequence: the session had no manifest and the request was valid. It now has
   the manifest asked for, the wanted list, all of it pending, one entry and one open checkpoint more, and no turn was taken.
   */
  lemma InitializedRun(g: Setting, requests: seq<RuntimeRunRequest>, stages: seq<Stage>, results: Outcomes, i: nat, x: InitializerResult)
    requires History(g, requests, stages, results) && i < |requests| && results[i] == Ok(Initialized(x))
    ensures var request, before, after, m := requests[i], Seen(requests, stages, i, i), Seen(requests, stages, i, i + 1), Seen(requests, stages, i, i + 1).manifest;
      && before.manifest == None && m.Some? && !Text.IsBlank(request.currentObjective)
      && m.value.sessionId == request.session && m.value.schemaVersion == g.schemaVersion && m.value.harnessVersion == g.harnessVersion
      && m.value.activeBranch == request.activeBranch && m.value.currentObjective == request.currentObjective
      && m.value.initPlan.Some? && m.value.lastKnownGoodCommit == None && m.value.metadata == map[]
      && PlanOf(m.value) == (match request.initPlan case Some(plan) => plan case None => DEFAULT_INIT_PLAN)
      && after.features == Wanted(request) && after.features != [] && DistinctFeatureIds(after.features)
      && (forall j :: 0 <= j < |after.features| ==> !after.features[j].passes)
      && |after.progress| == |before.progress| + 1 && before.progress <= after.progress
      && after.progress[|before.progress|] == ProgressEntry(request.runId, SummaryOf(request), g.oracles.clock(stages[i].at.ticks))
      && |after.checkpoints| == |before.checkpoints| + 1 && before.checkpoints <= after.checkpoints
      && after.checkpoints[|before.checkpoints|].status == InProgress && after.checkpoints[|before.checkpoints|].runId == request.runId
      && after.transcript == before.transcript && stages[i + 1].at.turns == stages[i].at.turns
      && x == InitializerResult(request.session, true, g.schemaVersion, g.harnessVersion, |after.features|)
  {
    hide DistinctFeatureIds, StarterFeatureList, Text.IsBlank, TaskLaw;
    FixedSummaryIsNotBlank();
    assert StageLaw(g, requests[i], stages[i], stages[i + 1], results[i]);
  }

  /** A memory operation of the `i`-th run was rejected. */
  ghost predicate SomeRejected(g: Setting, stages: seq<Stage>, i: nat)
    requires i + 1 < |stages|
  {
    exists op :: stages[i].at.operations <= op < stages[i + 1].at.operations && g.oracles.fault(op)
  }

  /**
   When no operation of a run is rejected, whether it ends well is told by the session and the request: without a manifest
   exactly when the request is valid; with one, a chat service is needed, and without it nothing changes.
   */
  lemma UnrejectedRun(g: Setting, requests: seq<RuntimeRunRequest>, stages: seq<Stage>, results: Outcomes, i: nat)
    requires History(g, requests, stages, results) && i < |requests| && !SomeRejected(g, stages, i)
    ensures var request, before, after, r := requests[i], Seen(requests, stages, i, i), Seen(requests, stages, i, i + 1), results[i];
      && (before.manifest == None ==> (r.Ok? <==> !Text.IsBlank(request.currentObjective) && Acceptable(Wanted(request))))
      && (before.manifest == None && r.Err? ==> r.error.kind == InvalidHarnessRequest && after == before)
      && (before.manifest.Some? && !g.hasChat ==> r == Err(NO_CHAT) && after == before)
      && (before.manifest.Some? && g.hasChat ==>
            && before.checkpoints <= after.checkpoints && |after.checkpoints| == |before.checkpoints| + 2
            && |after.progress| == |before.progress| + 1
            && (after.checkpoints[|before.checkpoints| + 1].status == Succeeded <==> r.Ok? && r.value.iteration.validated))
  {
    hide Acceptable, StarterFeatureList, Text.IsBlank, RunLaw, HandedOff, FramedRun;
    assert StageLaw(g, requests[i], stages[i], stages[i + 1], results[i]);
    var before, after, run, at, to := Seen(requests, stages, i, i), Seen(requests, stages, i, i + 1), stages[i].run, stages[i].at, stages[i + 1].at;
    var next := at.(operations := at.operations + 1);
    assert at.operations < to.operations ==> !g.oracles.fault(at.operations);
    assert next.operations < to.operations ==> !g.oracles.fault(next.operations);
    if before.manifest.Some? && g.hasChat {
      var task := TaskIterationRequest(requests[i].session, requests[i].runId, requests[i].stream, requests[i].promptOverride);
      var r := if results[i].Ok? then Ok(results[i].value.iteration) else Err(results[i].error);
      assert TaskLaw(g, task, before, next, after, to, run, r);
      assert run.op < to.operations ==> !g.oracles.fault(run.op);
      assert run.op + 1 < to.operations ==> !g.oracles.fault(run.op + 1);
      UnrejectedTask(g, task, before, next, after, to, run, r);
    }
  }

  lemma UnrejectedTask(g: Setting, task: TaskIterationRequest, before: SessionState, at: Counters, after: SessionState, to: Counters, run: TaskRun,
                       r: Result<TaskIterationResult, HarnessError>)
    requires g.hasChat && before.manifest.Some? && TaskLaw(g, task, before, at, after, to, run, r)
    requires !g.oracles.fault(at.operations) && !g.oracles.fault(run.op) && !g.oracles.fault(run.op + 1)
    ensures before.checkpoints <= after.checkpoints && |after.checkpoints| == |before.checkpoints| + 2 && |after.progress| == |before.progress| + 1
    ensures after.checkpoints[|before.checkpoints| + 1].status == Succeeded <==> r.Ok? && r.value.validated
  {
    hide RunLaw, HandedOff;
    var c := Context(g.oracles, g.policy, task, run.objective);
    assert FramedRun(c, before, at.turns, at.ticks, after, to.turns, run, r);
    var status := HandoffLaw(c, before, at.turns, at.ticks, after, to.turns, run, r);
    if r.Ok? {
      TaskRunTold(g, task, before, at, after, to, run, r.value);
    }
  }

  /** The last turn before a count failed with an error, at the chat or at the validator, for some feature. */
  ghost predicate TurnFailed(c: Context, to: nat, e: HarnessError) {
    exists f: FeatureRecord, n: nat :: n + 1 == to && FailsWith(c, f, n, e)
  }

  predicate FailsWith(c: Context, f: FeatureRecord, n: nat, e: HarnessError) {
    Chatted(c, f, n) == Err(e) || (Chatted(c, f, n).Ok? && c.oracles.validate(n, f, Chatted(c, f, n).value) == Err(e))
  }

  /**
   A failed run, anywhere in a sequence, has one of these causes: an operation was rejected; an invalid initializer request;
   no chat service; or, in a task run whose records it still leaves, an objection of the health check, a selector without
   work, a selected feature that is not stored, or the failure of its last turn.
   */
  lemma FailedRun(g: Setting, requests: seq<RuntimeRunRequest>, stages: seq<Stage>, results: Outcomes, i: nat, e: HarnessError)
    requires History(g, requests, stages, results) && i < |requests| && results[i] == Err(e)
    ensures var request, before, after, to := requests[i], Seen(requests, stages, i, i), Seen(requests, stages, i, i + 1), stages[i + 1].at;
      || (SomeRejected(g, stages, i) && e == MEMORY_FAULT)
      || (before.manifest == None && (Text.IsBlank(request.currentObjective) || !Acceptable(Wanted(request))) && after == before)
      || (before.manifest.Some? && !g.hasChat && e == NO_CHAT && after == before)
      || (before.manifest.Some? && g.hasChat && before.checkpoints <= after.checkpoints && before.progress <= after.progress
          && var c := Context(g.oracles, g.policy, TaskIterationRequest(request.session, request.runId, request.stream, request.promptOverride),
                              before.manifest.value.currentObjective);
            || (g.policy.failFast.onHealthCheckError && g.oracles.health(request.session, PlanOf(before.manifest.value)) == Some(e) && after.features == before.features)
            || (e == NO_WORK && !AllPassed(after.features) && g.oracles.select(after.features) == None)
            || (e == FEATURE_MISSING && g.oracles.select(after.features).Some? && FindFeature(after.features, g.oracles.select(after.features).value.id) == None)
            || TurnFailed(c, to.turns, e))
  {
    hide Acceptable, StarterFeatureList, Text.IsBlank, RunLaw, HandedOff, FramedRun, AllPassed, FindFeature, TurnFailed;
    assert StageLaw(g, requests[i], stages[i], stages[i + 1], results[i]);
    var before, after, run, at, to := Seen(requests, stages, i, i), Seen(requests, stages, i, i + 1), stages[i].run, stages[i].at, stages[i + 1].at;
    var next := at.(operations := at.operations + 1);
    var task := TaskIterationRequest(requests[i].session, requests[i].runId, requests[i].stream, requests[i].promptOverride);
    if !g.oracles.fault(at.operations) && before.manifest.Some? && g.hasChat && !g.oracles.fault(next.operations) {
      assert TaskLaw(g, task, before, next, after, to, run, Err(e));
      TaskFailureTold(g, task, before, next, after, to, run, e);
      assert SomeFault(g, next, to) ==> SomeRejected(g, stages, i);
    } else {
      assert g.oracles.fault(at.operations) && at.operations < to.operations ==> SomeRejected(g, stages, i);
      assert g.oracles.fault(next.operations) && next.operations < to.operations ==> SomeRejected(g, stages, i);
      assert g.oracles.fault(next.operations + 1) && next.operations + 1 < to.operations ==> SomeRejected(g, stages, i);
    }
  }

  ghost predicate SomeFault(g: Setting, at: Counters, to: Counters) {
    exists op :: at.operations <= op < to.operations && g.oracles.fault(op)
  }

  lemma TaskFailureTold(g: Setting, task: TaskIterationRequest, before: SessionState, at: Counters, after: SessionState, to: Counters, run: TaskRun, e: HarnessError)
    requires g.hasChat && before.manifest.Some? && !g.oracles.fault(at.operations) && TaskLaw(g, task, before, at, after, to, run, Err(e))
    ensures before.checkpoints <= after.checkpoints && before.progress <= after.progress
    ensures var c := Context(g.oracles, g.policy, task, before.manifest.value.currentObjective);
      || (SomeFault(g, at, to) && e == MEMORY_FAULT)
      || (g.policy.failFast.onHealthCheckError && g.oracles.health(task.session, PlanOf(before.manifest.value)) == Some(e) && after.features == before.features)
      || (e == NO_WORK && !AllPassed(after.features) && g.oracles.select(after.features) == None)
      || (e == FEATURE_MISSING && g.oracles.select(after.features).Some? && FindFeature(after.features, g.oracles.select(after.features).value.id) == None)
      || TurnFailed(c, to.turns, e)
  {
    hide MarkAll, AllPassed, Chain, FindFeature, Chatted, Ended;
    var c := Context(g.oracles, g.policy, task, run.objective);
    var framed := before.(checkpoints := before.checkpoints + [RunCheckpoint(task.runId, g.oracles.clock(at.ticks + 1), None, InProgress, None)]);
    assert FramedRun(c, before, at.turns, at.ticks, after, to.turns, run, Err(e));
    if g.oracles.fault(run.op) || g.oracles.fault(run.op + 1) {
      assert SomeFault(g, at, to);
    } else {
      FailureTold(c, framed, at.turns, run.left, to.turns, run.op, run.works, run.stop, e);
      if run.works != [] {
        var last := run.works[|run.works| - 1];
        LastWork(c, framed.features, at.turns, run.works, to.turns);
        assert FindFeature(after.features, last.feature.id) == None <==> forall i :: 0 <= i < |after.features| ==> after.features[i].id != last.feature.id;
        assert LastTurn(c, run.works) == Chatted(c, last.feature, to.turns - 1);
        assert FailsWith(c, last.feature, to.turns - 1, e) ==> TurnFailed(c, to.turns, e);
      } else {
        MarkNone(before.features);
        assert Validated([], run.stop) == [];
      }
      assert run.op > 0 && g.oracles.fault(run.op - 1) ==> SomeFault(g, at, to);
    }
  }

  /** Phases over a whole sequence: a session is initialized well at most once, and every later run of it that ends well is a task run. */
  lemma InitializedOnce(g: Setting, requests: seq<RuntimeRunRequest>, stages: seq<Stage>, results: Outcomes, i: nat, j: nat)
    requires History(g, requests, stages, results) && i < j < |requests|
    requires results[i].Ok? && requests[j].session == requests[i].session && results[j].Ok?
    ensures results[j].value.Iterated?
  {
    hide StageLaw, Evolves;
    assert StageLaw(g, requests[i], stages[i], stages[i + 1], results[i]);
    assert StageLaw(g, requests[j], stages[j], stages[j + 1], results[j]);
    PhaseOf(g, requests[i], stages[i], stages[i + 1], results[i]);
    PhaseOf(g, requests[j], stages[j], stages[j + 1], results[j]);
    HistoryEvolves(g, requests, stages, results, i + 1, j, requests[i].session);
    ManifestStays(Seen(requests, stages, i, i + 1), Seen(requests, stages, j, j));
  }

  lemma PhaseOf(g: Setting, request: RuntimeRunRequest, here: Stage, next: Stage, r: Result<RuntimeRunOutcome, HarnessError>)
    requires StageLaw(g, request, here, next, r) && r.Ok?
    ensures r.value.Initialized? <==> StateIn(here.sessions, request.session).manifest == None
    ensures StateIn(next.sessions, request.session).manifest.Some?
  {
    hide Chain, Ended, MarkAll, StarterFeatureList, Acceptable, Text.IsBlank;
  }

  lemma ManifestStays(s: SessionState, t: SessionState)
    requires Evolves(s, t) && s.manifest.Some?
    ensures t.manifest == s.manifest
  {
  }

  /** The ids validated by the task runs of a session, in order. */
  function ValidatedBy(requests: seq<RuntimeRunRequest>, results: Outcomes, id: SessionId): seq<string>
    requires |results| == |requests|
  {
    if requests == [] then []
    else
      var last := |requests| - 1;
      ValidatedBy(requests[..last], results[..last], id)
      + if requests[last].session == id && results[last].Ok? && results[last].value.Iterated? then results[last].value.iteration.validatedFeatureIds else []
  }

  /**
   Over a sequence of task runs that all end well, a session's list is the one it began with, with exactly the ids its
   runs reported as validated marked, in order.
   */
  lemma {:induction false} SequenceMarks(g: Setting, requests: seq<RuntimeRunRequest>, stages: seq<Stage>, results: Outcomes, id: SessionId)
    requires History(g, requests, stages, results)
    requires forall i :: 0 <= i < |requests| && requests[i].session == id ==> results[i].Ok? && results[i].value.Iterated?
    ensures StateIn(stages[|requests|].sessions, id).features == MarkAll(StateIn(stages[0].sessions, id).features, ValidatedBy(requests, results, id))
    decreases |requests|
  {
    hide MarkAll, AllPassed, StageLaw, AcceptedAt;
    if requests != [] {
      var last := |requests| - 1;
      var fs, ids := StateIn(stages[0].sessions, id).features, ValidatedBy(requests[..last], results[..last], id);
      SequenceMarks(g, requests[..last], stages[..last + 1], results[..last], id);
      assert StageLaw(g, requests[last], stages[last], stages[last + 1], results[last]);
      if requests[last].session == id {
        var t := results[last].value.iteration;
        IteratedRun(g, requests, stages, results, last, t);
        MarkAllTwice(fs, ids, t.validatedFeatureIds);
      } else {
        OthersStay(g, requests[last], stages[last], stages[last + 1], results[last], id);
        assert ids + [] == ids;
      }
    } else {
      MarkNone(StateIn(stages[0].sessions, id).features);
    }
  }

  lemma OthersStay(g: Setting, request: RuntimeRunRequest, here: Stage, next: Stage, r: Result<RuntimeRunOutcome, HarnessError>, id: SessionId)
    requires StageLaw(g, request, here, next, r) && request.session != id
    ensures StateIn(next.sessions, id) == StateIn(here.sessions, id)
  {
    hide PhaseLaw;
  }

  lemma {:induction false} MarkAllTwice(fs: seq<FeatureRecord>, ids: seq<string>, more: seq<string>)
    ensures MarkAll(MarkAll(fs, ids), more) == MarkAll(fs, ids + more)
    decreases |more|
  {
    if more == [] {
      MarkNone(MarkAll(fs, ids));
      assert ids + more == ids;
    } else {
      hide MarkFirst;
      var init, last := more[..|more| - 1], more[|more| - 1];
      MarkAllTwice(fs, ids, init);
      assert ids + more == (ids + init) + [last] && init + [last] == more;
      MarkAllAppend(fs, ids + init, last);
      MarkAllAppend(MarkAll(fs, ids), init, last);
    }
  }
}
