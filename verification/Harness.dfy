/** The harness of fharness/src/harness.rs over the in-memory backend: initializer, task runs and phase selection. */
module Harness {
  import opened Wrappers
  import opened ProviderModel
  import opened MemoryModel
  import opened ChatTurn
  import opened HarnessPolicy
  import opened HarnessRuns
  import Text

  datatype InitializerRequest = InitializerRequest(
    session: SessionId,
    runId: string,
    activeBranch: string,
    currentObjective: string,
    initPlan: Option<seq<InitStep>>,
    featureList: seq<FeatureRecord>,
    progressSummary: string)

  datatype InitializerResult = InitializerResult(session: SessionId, created: bool, schemaVersion: u32, harnessVersion: string, featureCount: nat)

  datatype RuntimeRunRequest = RuntimeRunRequest(
    session: SessionId,
    runId: string,
    currentObjective: string,
    stream: bool,
    promptOverride: Option<string>,
    initPlan: Option<seq<InitStep>>,
    featureList: seq<FeatureRecord>,
    activeBranch: string,
    progressSummary: Option<string>)

  datatype RuntimeRunOutcome = Initialized(initializer: InitializerResult) | Iterated(iteration: TaskIterationResult)

  const NO_CHAT := HarnessError(NotReady, "chat service is not configured in harness")

  // ---- feature lists ----

  predicate WellFormed(f: FeatureRecord) {
    !Text.IsBlank(f.id) && !Text.IsBlank(f.description) && f.steps != [] && !f.passes
  }

  /** A list an initializer may store: not empty, with distinct ids, every entry described and pending. */
  ghost predicate Acceptable(fs: seq<FeatureRecord>) {
    fs != [] && DistinctFeatureIds(fs) && forall i :: 0 <= i < |fs| ==> WellFormed(fs[i])
  }

  /** `validate_feature_list`. */
  method ValidateFeatureList(fs: seq<FeatureRecord>) returns (e: Option<HarnessError>)
    ensures e == None <==> Acceptable(fs)
    ensures e.Some? ==> e.value.kind == InvalidHarnessRequest
  {
    hide Text.IsBlank;
    if fs == [] {
      return Some(HarnessError(InvalidHarnessRequest, "feature_list must contain at least one feature"));
    }
    var ids: set<string> := {};
    for i := 0 to |fs|
      invariant ids == set j | 0 <= j < i :: fs[j].id
      invariant DistinctFeatureIds(fs[..i])
      invariant forall j :: 0 <= j < i ==> WellFormed(fs[j])
    {
      var f := fs[i];
      if Text.IsBlank(f.id) {
        return Some(HarnessError(InvalidHarnessRequest, "feature_list entries require non-empty id"));
      }
      if f.id in ids {
        return Some(HarnessError(InvalidHarnessRequest, "feature_list contains duplicate id '" + f.id + "': ids must be unique"));
      }
      ids := ids + {f.id};
      if Text.IsBlank(f.description) {
        return Some(HarnessError(InvalidHarnessRequest, "feature '" + f.id + "' must include a non-empty description"));
      }
      if f.steps == [] {
        return Some(HarnessError(InvalidHarnessRequest, "feature '" + f.id + "' must include at least one validation step"));
      }
      if f.passes {
        return Some(HarnessError(InvalidHarnessRequest, "feature '" + f.id + "' cannot start with passes=true during initializer phase"));
      }
    }
    assert fs[..|fs|] == fs;
    e := None;
  }

  function Feature(id: string, category: string, description: string, steps: seq<string>): FeatureRecord {
    FeatureRecord(id, category, description, steps, false)
  }

  function StarterId(i: nat): string {
    match i
    case 0 => "initializer.artifacts"
    case 1 => "harness.baseline"
    case 2 => "chat.turn"
    case 3 => "chat.streaming"
    case 4 => "tool.loop"
    case _ => "quality.regression"
  }

  function StarterDescription(i: nat, objective: string): string {
    match i
    case 0 => "Initializer artifacts exist for objective: " + objective
    case 1 => "Baseline harness checks can run before task iterations"
    case 2 => "Chat turn execution path is available"
    case 3 => "Streaming turn execution emits expected events"
    case 4 => "Tool loop executes and feeds results back into model"
    case _ => "Regression test pass status is tracked"
  }

  function StarterSteps(i: nat): seq<string> {
    match i
    case 0 => ["Create init plan metadata", "Create session manifest", "Create starter feature list"]
    case 1 => ["Run startup script", "Verify workspace status is readable", "Record baseline in progress log"]
    case 2 => ["Create a chat session", "Run one non-streaming turn", "Persist transcript messages"]
    case 3 => ["Run one streaming turn", "Observe text/tool events", "Observe terminal turn completion"]
    case 4 => ["Register at least one tool", "Execute tool call during turn", "Confirm follow-up completion"]
    case _ => ["Run crate-level tests", "Capture failures in progress log", "Only mark feature pass after verification"]
  }

  /** `starter_feature_list`. */
  function StarterFeatureList(objective: string): seq<FeatureRecord> {
    seq(6, i requires 0 <= i < 6 =>
      Feature(StarterId(i), if i == 5 then "quality" else "functional", StarterDescription(i, objective), StarterSteps(i)))
  }

  /** The starter list passes its own validation, whatever the objective. */
  lemma StarterListAcceptable(objective: string)
    ensures Acceptable(StarterFeatureList(objective))
  {
    hide StarterId, StarterDescription, StarterSteps, Text.IsBlank;
    forall i: nat | i < 6 ensures WellFormed(StarterFeatureList(objective)[i]) {
      StarterIdNamed(i);
      StarterDescribed(i, objective);
      StarterStepped(i);
    }
    forall i: nat, j: nat | i < j < 6 ensures StarterId(i) != StarterId(j) {
      StarterIdNamed(i);
      StarterIdNamed(j);
    }
  }

  lemma StarterDescribed(i: nat, objective: string)
    ensures !Text.IsBlank(StarterDescription(i, objective))
  {
    hide Text.IsBlank, Text.IsWhitespace;
    var d := StarterDescription(i, objective);
    var c := if i == 0 then ':' else if i == 1 || i == 3 then 's' else if i == 2 then 'e' else if i == 4 then 'l' else 'd';
    assert c in d;
    NotBlank(d, c);
  }

  lemma StarterStepped(i: nat)
    ensures StarterSteps(i) != []
  {
  }

  /** The starter ids differ in length, except two that differ in their first letter. */
  lemma StarterIdNamed(i: nat)
    ensures var id := StarterId(i);
      && !Text.IsBlank(id)
      && |id| == (if i == 0 then 21 else if i == 1 then 16 else if i == 2 || i == 4 then 9 else if i == 3 then 14 else 18)
      && (i == 2 ==> id[0] == 'c') && (i == 4 ==> id[0] == 't')
  {
    hide Text.IsBlank, Text.IsWhitespace;
    var id := StarterId(i);
    NotBlank(id, id[0]);
  }

  lemma NotBlank(s: string, c: char)
    requires c in s && ':' <= c <= 'z'
    ensures !Text.IsBlank(s)
  {
    Text.BlankIff(s);
  }

  // ---- growth of a stored list ----

  /** Only pass flags changed, and none was taken back. */
  ghost predicate Grown(fs: seq<FeatureRecord>, gs: seq<FeatureRecord>) {
    |gs| == |fs| && forall i :: 0 <= i < |fs| ==> gs[i] == fs[i].(passes := gs[i].passes) && (fs[i].passes ==> gs[i].passes)
  }

  /** What every run keeps of a session: distinct ids, its manifest and list once initialized, and all that was recorded. */
  ghost predicate Evolves(s: SessionState, t: SessionState) {
    && (DistinctFeatureIds(s.features) ==> DistinctFeatureIds(t.features))
    && (s.manifest.Some? ==> t.manifest == s.manifest && Grown(s.features, t.features))
    && (s.manifest == None && t.manifest == None ==> t.features == s.features)
    && (s.manifest == None && t.manifest.Some? ==> |t.features| > 0)
    && s.progress <= t.progress && s.checkpoints <= t.checkpoints && s.transcript <= t.transcript
  }

  lemma EvolvesOn(s: SessionState, t: SessionState, u: SessionState)
    requires Evolves(s, t) && Evolves(t, u)
    ensures Evolves(s, s) && Evolves(s, u)
  {
    hide DistinctFeatureIds;
  }

  lemma MarkedGrows(fs: seq<FeatureRecord>, ids: seq<string>)
    ensures Grown(fs, MarkAll(fs, ids))
    ensures DistinctFeatureIds(fs) ==> DistinctFeatureIds(MarkAll(fs, ids))
  {
    hide MarkAll;
    MarkAllLaw(fs, ids);
  }

  lemma ChainExtends(c: Context, fs: seq<FeatureRecord>, from: nat, works: seq<Work>, at: nat, f: FeatureRecord, to: nat)
    requires Chain(c, fs, from, works, at) && (works != [] ==> LastAttempt(c, works).Accepted?)
    requires !AllPassed(MarkAll(fs, Ids(works))) && c.oracles.select(MarkAll(fs, Ids(works))) == Some(f)
    requires c.WorkedOn(f, at, to)
    ensures Chain(c, fs, from, works + [Work(f, at, to)], to)
    ensures Ids(works + [Work(f, at, to)]) == Ids(works) + [f.id]
    ensures LastAttempt(c, works + [Work(f, at, to)]) == c.Judge(to - 1, f)
  {
    var more := works + [Work(f, at, to)];
    assert more[..|more| - 1] == works;
  }

  lemma SaidNext(c: Context, f: FeatureRecord, from: nat, to: nat, earlier: seq<Message>)
    requires from <= to
    ensures earlier + SaidOn(c, f, from, from) == earlier
    ensures earlier + SaidOn(c, f, from, to + 1) == (earlier + SaidOn(c, f, from, to)) + c.oracles.chat(to, c.TurnFor(f)).stored
  {
  }

  lemma SaidMore(c: Context, earlier: seq<Message>, works: seq<Work>, work: Work)
    ensures earlier + Said(c, works + [work]) == (earlier + Said(c, works)) + SaidOn(c, work.feature, work.from, work.to)
  {
    hide SaidOn;
    assert (works + [work])[..|works|] == works;
  }

  lemma ChainNone(c: Context, fs: seq<FeatureRecord>, from: nat)
    ensures Chain(c, fs, from, [], from) && Ids([]) == [] && MarkAll(fs, []) == fs
  {
  }

  /** How work on one feature ended. */
  datatype FeatureWork = Marked(message: string) | Unmarked(message: string) | Broken(error: HarnessError)

  /** What the end of the work says about the last turn, the list before and after it, and rejected operations. */
  ghost predicate WorkLaw(c: Context, f: FeatureRecord, a: Attempt, list: seq<FeatureRecord>, later: seq<FeatureRecord>, op: nat, w: FeatureWork, stop: Stop)
  {
    match w
    case Marked(m) => a == Accepted(m) && FindFeature(list, f.id).Some? && later == MarkFirst(list, f.id, true)
    case Unmarked(m) => a == Refused(m) && later == list && stop == Unvalidated
    case Broken(e) =>
      && later == list
      && ( || (stop == GaveUp && (a.ChatFailed? || a.ValidatorFailed?) && e == a.error)
           || (stop == MarkRejected && a.Accepted? && op > 0 && c.oracles.fault(op - 1) && e == MEMORY_FAULT)
           || (stop == MarkMissed && a.Accepted? && FindFeature(list, f.id) == None && e == FEATURE_MISSING))
  }

  /** A run under way: all features worked on so far were accepted and marked. */
  ghost predicate Going(c: Context, before: SessionState, from: nat, works: seq<Work>, now: SessionState, to: nat) {
    && Chain(c, before.features, from, works, to)
    && (works != [] ==> LastAttempt(c, works).Accepted?)
    && before.manifest.Some? && c.objective == before.manifest.value.currentObjective && HealthObjection(c, before) == None
    && (c.policy.Limit().Some? ==> |works| <= c.policy.Limit().value)
    && now == before.(features := MarkAll(before.features, Ids(works)), transcript := before.transcript + Said(c, works))
  }

  lemma Starts(c: Context, before: SessionState, from: nat)
    requires before.manifest.Some? && c.objective == before.manifest.value.currentObjective && HealthObjection(c, before) == None
    ensures Going(c, before, from, [], before, from) && Ids([]) == [] && LastId([]) == None && LastMessage(c, []) == None
  {
    assert before.transcript + [] == before.transcript;
  }

  /** The id vectors, the selected id and the last message that the outer loop carries along. */
  datatype Progress = Progress(processed: seq<string>, validated: seq<string>, selected: Option<string>, lastMessage: Option<string>)

  const NO_PROGRESS := Progress([], [], None, None)

  datatype Iteration = Moved(progress: Progress) | Stopped(result: Result<TaskIterationResult, HarnessError>)

  /** What the loop carries at its head: all processed features are validated ones. */
  ghost predicate Tracks(c: Context, works: seq<Work>, p: Progress) {
    p == Progress(Ids(works), Ids(works), LastId(works), LastMessage(c, works))
  }

  lemma WithinLimit(c: Context, before: SessionState, from: nat, works: seq<Work>, now: SessionState, to: nat)
    requires Going(c, before, from, works, now, to)
    ensures c.policy.Limit().Some? ==> |works| <= c.policy.Limit().value
  {
  }

  lemma TracksLength(c: Context, works: seq<Work>, p: Progress)
    requires Tracks(c, works, p)
    ensures |p.processed| == |works|
  {
  }

  lemma NothingYet(c: Context)
    ensures Tracks(c, [], NO_PROGRESS)
  {
  }

  lemma OutcomeAtHead(c: Context, works: seq<Work>, stop: Stop, noPending: bool)
    requires !stop.Midway()
    ensures Outcome(c, works, stop, noPending) == TaskIterationResult(
      c.request.session, LastId(works), Ids(works), Ids(works), |works|, true, noPending, c.request.stream, LastMessage(c, works))
  {
  }

  lemma EndsAtHead(c: Context, before: SessionState, from: nat, works: seq<Work>, now: SessionState, to: nat, op: nat, stop: Stop,
                   r: Result<TaskIterationResult, HarnessError>)
    requires Going(c, before, from, works, now, to) && !stop.Midway()
    requires
      || (stop == LoadRejected && op > 0 && c.oracles.fault(op - 1) && r == Err(MEMORY_FAULT))
      || (stop == NoWork && !AllPassed(now.features) && c.oracles.select(now.features) == None && r == Err(NO_WORK))
      || (stop == AllDone && AllPassed(now.features) && r == Ok(Outcome(c, works, stop, true)))
      || (stop == LimitReached && works != [] && c.policy.Limit() == Some(|works|) && r == Ok(Outcome(c, works, stop, AllPassed(now.features))))
    ensures RunLaw(c, before, from, now, to, op, works, stop, r)
  {
    hide Chain, MarkAll, AllPassed, Outcome;
  }

  lemma EndsEarly(c: Context, before: SessionState, from: nat, op: nat, stop: Stop, r: Result<TaskIterationResult, HarnessError>)
    requires
      || (stop == LoadRejected && op > 0 && c.oracles.fault(op - 1) && r == Err(MEMORY_FAULT))
      || (stop == NotInitialized && before.manifest == None && r == Err(NOT_INITIALIZED))
      || (stop == Unhealthy && HealthObjection(c, before) != None && r == Err(HealthObjection(c, before).value))
    ensures RunLaw(c, before, from, before, from, op, [], stop, r)
  {
    ChainNone(c, before.features, from);
    assert before.transcript + [] == before.transcript;
    assert Validated([], stop) == Ids([]);
  }

  /** What a feature's work makes of the run. */
  lemma Continues(c: Context, before: SessionState, from: nat, works: seq<Work>, now: SessionState, at: nat,
                  f: FeatureRecord, later: SessionState, to: nat, op: nat, w: FeatureWork, stop: Stop)
    requires Going(c, before, from, works, now, at)
    requires c.policy.Limit().Some? ==> |works| < c.policy.Limit().value
    requires !AllPassed(now.features) && c.oracles.select(now.features) == Some(f)
    requires c.WorkedOn(f, at, to) && WorkLaw(c, f, c.Judge(to - 1, f), now.features, later.features, op, w, stop)
    requires later == now.(features := later.features, transcript := now.transcript + SaidOn(c, f, at, to))
    ensures var more := works + [Work(f, at, to)];
      && Ids(more) == Ids(works) + [f.id] && LastId(more) == Some(f.id)
      && (w.Marked? ==> Going(c, before, from, more, later, to) && LastMessage(c, more) == Some(w.message))
      && (w.Unmarked? ==> RunLaw(c, before, from, later, to, op, more, Unvalidated, Ok(Outcome(c, more, Unvalidated, false))))
      && (w.Unmarked? ==> Outcome(c, more, Unvalidated, false) == TaskIterationResult(
            c.request.session, Some(f.id), Ids(more), Ids(works), |more|, false, false, c.request.stream, Some(w.message)))
      && (w.Broken? ==> RunLaw(c, before, from, later, to, op, more, stop, Err(w.error)))
  {
    hide MarkAll, MarkFirst, FindFeature, AllPassed, Chain, Context.WorkedOn, Context.Judge, Ids, LastAttempt;
    var more := works + [Work(f, at, to)];
    SaidMore(c, before.transcript, works, Work(f, at, to));
    ChainExtends(c, before.features, from, works, at, f, to);
    MarkAllAppend(before.features, Ids(works), f.id);
    assert Ids(more)[..|Ids(more)| - 1] == Ids(works);
    IdsLength(more);
  }

  /** Marking the chosen feature leaves one fewer pending, so a run without a limit comes to an end. */
  lemma StaysReady(select: Selector, list: seq<FeatureRecord>, f: FeatureRecord, c: Context, to: nat, later: seq<FeatureRecord>, op: nat, w: FeatureWork, stop: Stop)
    requires PicksPending(select) && PendingAreFirst(list) && select(list) == Some(f)
    requires to > 0 && WorkLaw(c, f, c.Judge(to - 1, f), list, later, op, w, stop) && w.Marked?
    ensures PendingAreFirst(later) && PendingCount(later) < PendingCount(list)
  {
    hide PendingAreFirst, PendingCount, MarkFirst, Context.Judge;
    MarkPending(list, f);
  }

  lemma IdsLength(works: seq<Work>)
    ensures |Ids(works)| == |works|
  {
  }

  /** A run that reports success did validate what it processed or found everything passing. */
  function FinalStatus(r: Result<TaskIterationResult, HarnessError>): RunStatus {
    if r.Ok? && (r.value.noPendingFeatures || r.value.validated) then Succeeded else RunFailed
  }

  /** A session after the final handoff: with the checkpoint and the entry, as far as the memory accepted them. */
  function HandedOff(o: Oracles, request: TaskIterationRequest, s: SessionState, op: nat, tick: nat, startedAt: Time, status: RunStatus, note: string): SessionState {
    if o.fault(op) then s
    else
      var noted := s.(checkpoints := s.checkpoints + [RunCheckpoint(request.runId, startedAt, Some(o.clock(tick)), status, Some(note))]);
      if o.fault(op + 1) then noted
      else noted.(progress := s.progress + [ProgressEntry(request.runId, note, o.clock(tick + 1))])
  }

  /** What happened inside a framed run: the state and the operation count it left, its own result, and its features. */
  datatype TaskRun = TaskRun(left: SessionState, op: nat, result: Result<TaskIterationResult, HarnessError>, works: seq<Work>, stop: Stop, objective: string)

  /** A run between its two checkpoints. Its two start times are read from the clock one after the other. */
  ghost predicate FramedRun(c: Context, before: SessionState, from: nat, tick: nat, after: SessionState, to: nat, run: TaskRun,
                            r: Result<TaskIterationResult, HarnessError>)
  {
    var o := c.oracles;
    var framed := before.(checkpoints := before.checkpoints + [RunCheckpoint(c.request.runId, o.clock(tick + 1), None, InProgress, None)]);
    && RunLaw(c, framed, from, run.left, to, run.op, run.works, run.stop, run.result)
    && after == HandedOff(o, c.request, run.left, run.op, tick + 2, o.clock(tick), FinalStatus(run.result), o.note(run.result))
    && r == if o.fault(run.op) || o.fault(run.op + 1) then Err(MEMORY_FAULT) else run.result
  }

  /** A framed run lets its session evolve; one whose run never marks anything leaves the list as it is. */
  lemma FramedRunEvolves(c: Context, before: SessionState, from: nat, tick: nat, after: SessionState, to: nat, run: TaskRun,
                         r: Result<TaskIterationResult, HarnessError>)
    requires FramedRun(c, before, from, tick, after, to, run, r)
    ensures Evolves(before, after)
  {
    hide MarkAll, Ended, Chain, DistinctFeatureIds, Grown, Validated;
    MarkedGrows(before.features, Validated(run.works, run.stop));
    if before.manifest == None {
      UninitializedRunMarksNothing(c, before, run);
    }
  }

  lemma UninitializedRunMarksNothing(c: Context, before: SessionState, run: TaskRun)
    requires before.manifest == None
    requires run.works != [] ==> before.manifest.Some?
    ensures MarkAll(before.features, Validated(run.works, run.stop)) == before.features
  {
    assert Validated(run.works, run.stop) == [];
  }

  /**
   The handoff of a run whose memory accepts everything: exactly two checkpoints, in progress and final, and one entry.
   The final status is success exactly when every stored feature passes or every processed one was validated.
   */
  lemma HandoffLaw(c: Context, before: SessionState, from: nat, tick: nat, after: SessionState, to: nat, run: TaskRun,
                   r: Result<TaskIterationResult, HarnessError>) returns (status: RunStatus)
    requires FramedRun(c, before, from, tick, after, to, run, r)
    requires !c.oracles.fault(run.op) && !c.oracles.fault(run.op + 1)
    ensures r == run.result
    ensures after.checkpoints == before.checkpoints + [
      RunCheckpoint(c.request.runId, c.oracles.clock(tick + 1), None, InProgress, None),
      RunCheckpoint(c.request.runId, c.oracles.clock(tick), Some(c.oracles.clock(tick + 2)), status, Some(c.oracles.note(r)))]
    ensures status != InProgress
    ensures status == Succeeded <==> r.Ok? && (AllPassed(after.features) || Ids(run.works) == r.value.validatedFeatureIds)
    ensures status == Succeeded ==> after.features == MarkAll(before.features, Ids(run.works))
    ensures after.progress == before.progress + [ProgressEntry(c.request.runId, c.oracles.note(r), c.oracles.clock(tick + 3))]
    ensures after.manifest == before.manifest
  {
    hide MarkAll, AllPassed, Chain, Ids, MarkFirst;
    if run.stop.Midway() && run.works != [] {
      IdsLength(run.works);
    }
    if run.works != [] {
      UnvalidatedLeavesPending(c, before, from, run, to);
    }
    status := FinalStatus(run.result);
    assert after.checkpoints == before.checkpoints + [
      RunCheckpoint(c.request.runId, c.oracles.clock(tick + 1), None, InProgress, None),
      RunCheckpoint(c.request.runId, c.oracles.clock(tick), Some(c.oracles.clock(tick + 2)), status, Some(c.oracles.note(r)))];
  }

  /**
   The handoff when its checkpoint or its entry is rejected: the run's own result is lost to the error, what it stored
   stays, with its first checkpoint and as much of the handoff as came before.
   */
  lemma RejectedHandoff(c: Context, before: SessionState, from: nat, tick: nat, after: SessionState, to: nat, run: TaskRun,
                        r: Result<TaskIterationResult, HarnessError>)
    requires FramedRun(c, before, from, tick, after, to, run, r)
    requires c.oracles.fault(run.op) || c.oracles.fault(run.op + 1)
    ensures r == Err(MEMORY_FAULT) && after.progress == before.progress
    ensures after.manifest == before.manifest && after.features == MarkAll(before.features, Validated(run.works, run.stop))
    ensures |after.checkpoints| == |before.checkpoints| + if c.oracles.fault(run.op) then 1 else 2
    ensures before.checkpoints + [RunCheckpoint(c.request.runId, c.oracles.clock(tick + 1), None, InProgress, None)] <= after.checkpoints
  {
    hide MarkAll, AllPassed, Chain, Ended;
  }

  lemma UnvalidatedLeavesPending(c: Context, before: SessionState, from: nat, run: TaskRun, to: nat)
    requires Chain(c, before.features, from, run.works, to) && run.works != []
    ensures !AllPassed(MarkAll(before.features, Ids(run.works)[..|run.works| - 1]))
  {
    IdsInit(run.works);
  }

  lemma SameEvolves(s: SessionState)
    ensures Evolves(s, s)
  {
  }

  lemma DistinctIsReady(s: SessionState)
    requires DistinctFeatureIds(s.features)
    ensures PendingAreFirst(s.features)
  {
  }

  lemma DistinctStays(s: SessionState, t: SessionState)
    requires Evolves(s, t) && DistinctFeatureIds(s.features)
    ensures DistinctFeatureIds(t.features)
  {
  }

  // ---- phases ----

  /** The parts of a harness that no run changes. */
  datatype Setting = Setting(oracles: Oracles, policy: RunPolicy, hasChat: bool, schemaVersion: u32, harnessVersion: string)

  /** How many turns were taken, memory operations asked for, and times read. */
  datatype Counters = Counters(turns: nat, operations: nat, ticks: nat)

  /**
   An initializer: an invalid request, or one whose operation is rejected, stores nothing; an initialized session stays
   as it is; any other gets the manifest and the list and, behind what it had, one entry and one checkpoint.
   */
  ghost predicate InitializerLaw(g: Setting, request: InitializerRequest, before: SessionState, at: Counters,
                                 after: SessionState, to: Counters, r: Result<InitializerResult, HarnessError>)
  {
    var o, objective := g.oracles, request.currentObjective;
    var list := if request.featureList == [] then StarterFeatureList(objective) else request.featureList;
    if Text.IsBlank(objective) || !Acceptable(list) then
      after == before && to == at && r.Err? && r.error.kind == InvalidHarnessRequest
    else if o.fault(at.operations) then
      after == before && to == Counters(at.turns, at.operations + 1, at.ticks + 2) && r == Err(MEMORY_FAULT)
    else
      && to == Counters(at.turns, at.operations + 2, at.ticks + 2)
      && (before.manifest.Some? ==> after == before)
      && (before.manifest == None ==>
            var summary := if Text.IsBlank(request.progressSummary) then "Initializer scaffold created for objective: " + objective else request.progressSummary;
            var plan := if request.initPlan.Some? then request.initPlan.value else DEFAULT_INIT_PLAN;
            after == SessionState(
              Some(SessionManifest(request.session, g.schemaVersion, g.harnessVersion, request.activeBranch, objective, None, Some(plan), map[])),
              list,
              before.progress + [ProgressEntry(request.runId, summary, o.clock(at.ticks))],
              before.checkpoints + [RunCheckpoint(request.runId, o.clock(at.ticks + 1), None, InProgress, None)],
              before.transcript))
      && r == (if o.fault(at.operations + 1) then Err(MEMORY_FAULT)
               else Ok(InitializerResult(after.manifest.value.sessionId, before.manifest == None, after.manifest.value.schemaVersion,
                                         after.manifest.value.harnessVersion, |after.features|)))
  }

  lemma InitializerRefused(g: Setting, request: InitializerRequest, before: SessionState, at: Counters, r: Result<InitializerResult, HarnessError>)
    requires Text.IsBlank(request.currentObjective)
      || !Acceptable(if request.featureList == [] then StarterFeatureList(request.currentObjective) else request.featureList)
    requires r.Err? && r.error.kind == InvalidHarnessRequest
    ensures InitializerLaw(g, request, before, at, before, at, r)
  {
    hide Text.IsBlank, Acceptable, StarterFeatureList;
  }

  lemma InitializerRejected(g: Setting, request: InitializerRequest, before: SessionState, at: Counters)
    requires !Text.IsBlank(request.currentObjective)
      && Acceptable(if request.featureList == [] then StarterFeatureList(request.currentObjective) else request.featureList)
    requires g.oracles.fault(at.operations)
    ensures InitializerLaw(g, request, before, at, before, Counters(at.turns, at.operations + 1, at.ticks + 2), Err(MEMORY_FAULT))
  {
    hide Text.IsBlank, Acceptable, StarterFeatureList;
  }

  lemma InitializerStores(g: Setting, request: InitializerRequest, before: SessionState, at: Counters, after: SessionState, created: bool,
                          r: Result<InitializerResult, HarnessError>)
    requires var list := if request.featureList == [] then StarterFeatureList(request.currentObjective) else request.featureList;
      var summary := if Text.IsBlank(request.progressSummary) then "Initializer scaffold created for objective: " + request.currentObjective else request.progressSummary;
      var manifest := SessionManifest(request.session, g.schemaVersion, g.harnessVersion, request.activeBranch, request.currentObjective, None,
                                      Some(request.initPlan.GetOr(DEFAULT_INIT_PLAN)), map[]);
      && !Text.IsBlank(request.currentObjective) && Acceptable(list) && !g.oracles.fault(at.operations)
      && (after, Flag(created)) == Apply(before, Initialize(request.session, manifest, list, Some(ProgressEntry(request.runId, summary, g.oracles.clock(at.ticks))),
           Some(RunCheckpoint(request.runId, g.oracles.clock(at.ticks + 1), None, InProgress, None))))
    requires after.manifest.Some? ==> r == if g.oracles.fault(at.operations + 1) then Err(MEMORY_FAULT)
      else Ok(InitializerResult(after.manifest.value.sessionId, created, after.manifest.value.schemaVersion, after.manifest.value.harnessVersion, |after.features|))
    ensures after.manifest.Some?
    ensures InitializerLaw(g, request, before, at, after, Counters(at.turns, at.operations + 2, at.ticks + 2), r)
  {
    hide Text.IsBlank, Acceptable, StarterFeatureList;
  }

  /** A task run: refused without a chat service or when its first checkpoint is, and framed by its checkpoints otherwise. */
  ghost predicate TaskLaw(g: Setting, request: TaskIterationRequest, before: SessionState, at: Counters,
                          after: SessionState, to: Counters, run: TaskRun, r: Result<TaskIterationResult, HarnessError>)
  {
    if !g.hasChat then
      after == before && to == at && r == Err(NO_CHAT)
    else if g.oracles.fault(at.operations) then
      after == before && to == Counters(at.turns, at.operations + 1, at.ticks + 2) && r == Err(MEMORY_FAULT)
    else
      && FramedRun(Context(g.oracles, g.policy, request, run.objective), before, at.turns, at.ticks, after, to.turns, run, r)
      && at.operations + 1 < run.op && to.operations == run.op + (if g.oracles.fault(run.op) then 1 else 2)
      && to.ticks == at.ticks + (if g.oracles.fault(run.op) then 3 else 4)
  }

  /** A run: its phase is read first; a session without a manifest gets an initializer, any other a task run. */
  ghost predicate PhaseLaw(g: Setting, request: RuntimeRunRequest, before: SessionState, at: Counters,
                           after: SessionState, to: Counters, run: TaskRun, r: Result<RuntimeRunOutcome, HarnessError>)
  {
    var next := at.(operations := at.operations + 1);
    if g.oracles.fault(at.operations) then
      after == before && to == next && r == Err(MEMORY_FAULT)
    else if before.manifest == None then
      var summary := if request.progressSummary.Some? then request.progressSummary.value else "Initializer scaffold created";
      var initializer := InitializerRequest(request.session, request.runId, request.activeBranch, request.currentObjective,
                                            request.initPlan, request.featureList, summary);
      match r
      case Ok(outcome) => outcome.Initialized? && InitializerLaw(g, initializer, before, next, after, to, Ok(outcome.initializer))
      case Err(e) => InitializerLaw(g, initializer, before, next, after, to, Err(e))
    else
      var task := TaskIterationRequest(request.session, request.runId, request.stream, request.promptOverride);
      match r
      case Ok(outcome) => outcome.Iterated? && TaskLaw(g, task, before, next, after, to, run, Ok(outcome.iteration))
      case Err(e) => TaskLaw(g, task, before, next, after, to, run, Err(e))
  }

  /** An initializer lets its session evolve. */
  lemma InitializerEvolves(g: Setting, request: InitializerRequest, before: SessionState, at: Counters,
                           after: SessionState, to: Counters, r: Result<InitializerResult, HarnessError>)
    requires InitializerLaw(g, request, before, at, after, to, r)
    ensures Evolves(before, after)
  {
    hide WellFormed, DistinctFeatureIds, Text.IsBlank, StarterFeatureList;
  }

  /** So does any run. */
  lemma PhaseEvolves(g: Setting, request: RuntimeRunRequest, before: SessionState, at: Counters,
                     after: SessionState, to: Counters, run: TaskRun, r: Result<RuntimeRunOutcome, HarnessError>)
    requires PhaseLaw(g, request, before, at, after, to, run, r)
    ensures Evolves(before, after)
  {
    hide Evolves, InitializerLaw, FramedRun;
    SameEvolves(before);
    var next := at.(operations := at.operations + 1);
    if !g.oracles.fault(at.operations) {
      if before.manifest == None {
        var summary := if request.progressSummary.Some? then request.progressSummary.value else "Initializer scaffold created";
        var initializer := InitializerRequest(request.session, request.runId, request.activeBranch, request.currentObjective,
                                              request.initPlan, request.featureList, summary);
        InitializerEvolves(g, initializer, before, next, after, to, if r.Ok? then Ok(r.value.initializer) else Err(r.error));
      } else if g.hasChat && !g.oracles.fault(next.operations) {
        var task := TaskIterationRequest(request.session, request.runId, request.stream, request.promptOverride);
        FramedRunEvolves(Context(g.oracles, g.policy, task, run.objective), before, next.turns, next.ticks, after, to.turns, run,
                         if r.Ok? then Ok(r.value.iteration) else Err(r.error));
      }
    }
  }

  // ---- sequences of runs ----

  /** One run of a sequence: the sessions before it, the counters at its start, and what happened in a task run. */
  datatype Stage = Stage(sessions: map<SessionId, SessionState>, at: Counters, run: TaskRun)

  function StateIn(sessions: map<SessionId, SessionState>, id: SessionId): SessionState {
    if id in sessions then sessions[id] else NEW_SESSION
  }

  /** A run between two stages leaves every session but its own alone. */
  ghost predicate StageLaw(g: Setting, request: RuntimeRunRequest, here: Stage, next: Stage, r: Result<RuntimeRunOutcome, HarnessError>) {
    && PhaseLaw(g, request, StateIn(here.sessions, request.session), here.at, StateIn(next.sessions, request.session), next.at, here.run, r)
    && forall other :: other != request.session ==> StateIn(next.sessions, other) == StateIn(here.sessions, other)
  }

  /** The runs of a sequence follow one another. */
  ghost predicate History(g: Setting, requests: seq<RuntimeRunRequest>, stages: seq<Stage>, results: seq<Result<RuntimeRunOutcome, HarnessError>>) {
    && |results| == |requests| && |stages| == |requests| + 1
    && forall i :: 0 <= i < |requests| ==> StageLaw(g, requests[i], stages[i], stages[i + 1], results[i])
  }

  lemma OneMoreRun(g: Setting, requests: seq<RuntimeRunRequest>, stages: seq<Stage>, results: seq<Result<RuntimeRunOutcome, HarnessError>>,
                   request: RuntimeRunRequest, run: TaskRun, next: Stage, r: Result<RuntimeRunOutcome, HarnessError>)
    requires History(g, requests, stages, results)
    requires StageLaw(g, request, stages[|requests|].(run := run), next, r)
    ensures History(g, requests + [request], stages[..|requests|] + [stages[|requests|].(run := run), next], results + [r])
  {
    hide StageLaw;
    var more := stages[..|requests|] + [stages[|requests|].(run := run), next];
    forall i | 0 <= i < |requests| + 1 ensures StageLaw(g, (requests + [request])[i], more[i], more[i + 1], (results + [r])[i]) {
      if i + 1 == |requests| {
        StageSeen(g, requests[i], stages[i], stages[i + 1], run, results[i]);
      }
    }
  }

  lemma StageSeen(g: Setting, request: RuntimeRunRequest, here: Stage, next: Stage, run: TaskRun, r: Result<RuntimeRunOutcome, HarnessError>)
    requires StageLaw(g, request, here, next, r)
    ensures StageLaw(g, request, here, next.(run := run), r)
  {
    hide PhaseLaw;
  }

  /** Over any sequence of runs every session evolves: lists keep distinct ids, and no feature that passes ever reverts. */
  lemma {:induction false} HistoryEvolves(g: Setting, requests: seq<RuntimeRunRequest>, stages: seq<Stage>,
                                          results: seq<Result<RuntimeRunOutcome, HarnessError>>, i: nat, j: nat, id: SessionId)
    requires History(g, requests, stages, results) && i <= j <= |requests|
    ensures Evolves(StateIn(stages[i].sessions, id), StateIn(stages[j].sessions, id))
    decreases j - i
  {
    hide Evolves, PhaseLaw;
    var start := StateIn(stages[i].sessions, id);
    SameEvolves(start);
    if i < j {
      HistoryEvolves(g, requests, stages, results, i, j - 1, id);
      var here, next := stages[j - 1], stages[j];
      assert StageLaw(g, requests[j - 1], here, next, results[j - 1]);
      if id == requests[j - 1].session {
        PhaseEvolves(g, requests[j - 1], StateIn(here.sessions, id), here.at, StateIn(next.sessions, id), next.at, here.run, results[j - 1]);
        EvolvesOn(start, StateIn(here.sessions, id), StateIn(next.sessions, id));
      }
    }
  }

  class Harness {
    const memory: InMemoryMemoryBackend
    const policy: RunPolicy
    const oracles: Oracles
    const hasChat: bool
    const schemaVersion: u32
    const harnessVersion: string
    var turns: nat
    var operations: nat
    var ticks: nat

    constructor (memory: InMemoryMemoryBackend, policy: RunPolicy, oracles: Oracles, hasChat: bool, schemaVersion: u32, harnessVersion: string)
      requires policy.Valid()
      ensures this.memory == memory && this.policy == policy && this.oracles == oracles && this.hasChat == hasChat
      ensures this.schemaVersion == schemaVersion && this.harnessVersion == harnessVersion
      ensures turns == operations == ticks == 0
    {
      this.memory, this.policy, this.oracles, this.hasChat := memory, policy, oracles, hasChat;
      this.schemaVersion, this.harnessVersion := schemaVersion, harnessVersion;
      turns, operations, ticks := 0, 0, 0;
    }

    function State(id: SessionId): SessionState
      reads memory
    {
      memory.View(id)
    }

    function Settings(): Setting {
      Setting(oracles, policy, hasChat, schemaVersion, harnessVersion)
    }

    function Counts(): Counters
      reads this
    {
      Counters(turns, operations, ticks)
    }

    /**
     What a run needs to end: a policy that was validated and, without a feature limit, a selector of pending features
     and no pending feature behind another of its id.
     */
    ghost predicate Ready(id: SessionId)
      reads memory
    {
      && policy.Valid()
      && (policy.Limit() == None ==> PicksPending(oracles.select) && PendingAreFirst(State(id).features))
    }

    method Now() returns (t: Time)
      modifies this`ticks
      ensures ticks == old(ticks) + 1 && t == oracles.clock(old(ticks))
    {
      t := oracles.clock(ticks);
      ticks := ticks + 1;
    }

    // ---- memory operations, each of which may be rejected ----

    method Load(id: SessionId) returns (r: Result<BootstrapState, HarnessError>)
      modifies this`operations
      ensures operations == old(operations) + 1
      ensures r == if oracles.fault(old(operations)) then Err(MEMORY_FAULT) else Ok(Bootstrap(State(id)))
    {
      operations := operations + 1;
      if oracles.fault(operations - 1) {
        return Err(MEMORY_FAULT);
      }
      var state := memory.LoadBootstrapState(id);
      r := Ok(state);
    }

    method MarkPassing(id: SessionId, featureId: string) returns (e: Option<HarnessError>)
      modifies this`operations, memory
      ensures operations == old(operations) + 1
      ensures oracles.fault(old(operations)) ==> e == Some(MEMORY_FAULT) && State(id) == old(State(id))
      ensures !oracles.fault(old(operations)) ==>
        if FindFeature(old(State(id)).features, featureId) == None then e == Some(FEATURE_MISSING) && State(id) == old(State(id))
        else e == None && State(id) == old(State(id)).(features := MarkFirst(old(State(id)).features, featureId, true))
      ensures forall other :: other != id ==> State(other) == old(State(other))
    {
      operations := operations + 1;
      if oracles.fault(operations - 1) {
        return Some(MEMORY_FAULT);
      }
      var missing := memory.UpdateFeaturePass(id, featureId, true);
      e := if missing.Some? then Some(FEATURE_MISSING) else None;
    }

    method RecordCheckpoint(id: SessionId, checkpoint: RunCheckpoint) returns (e: Option<HarnessError>)
      modifies this`operations, memory
      ensures operations == old(operations) + 1
      ensures e == if oracles.fault(old(operations)) then Some(MEMORY_FAULT) else None
      ensures State(id) == if e.Some? then old(State(id)) else old(State(id)).(checkpoints := old(State(id)).checkpoints + [checkpoint])
      ensures forall other :: other != id ==> State(other) == old(State(other))
    {
      operations := operations + 1;
      if oracles.fault(operations - 1) {
        return Some(MEMORY_FAULT);
      }
      memory.RecordRunCheckpoint(id, checkpoint);
      e := None;
    }

    method AppendProgress(id: SessionId, entry: ProgressEntry) returns (e: Option<HarnessError>)
      modifies this`operations, memory
      ensures operations == old(operations) + 1
      ensures e == if oracles.fault(old(operations)) then Some(MEMORY_FAULT) else None
      ensures State(id) == if e.Some? then old(State(id)) else old(State(id)).(progress := old(State(id)).progress + [entry])
      ensures forall other :: other != id ==> State(other) == old(State(other))
    {
      operations := operations + 1;
      if oracles.fault(operations - 1) {
        return Some(MEMORY_FAULT);
      }
      memory.AppendProgressEntry(id, entry);
      e := None;
    }

    // ---- task runs ----

    /** `execute_turn`: the chat service takes a turn and leaves its messages in the transcript. */
    method ExecuteTurn(turn: TurnRequest) returns (r: Result<ChatTurnResult, HarnessError>)
      modifies this`turns, memory
      ensures turns == old(turns) + 1 && r == oracles.chat(old(turns), turn).result
      ensures State(turn.session) == old(State(turn.session)).(transcript := old(State(turn.session)).transcript + oracles.chat(old(turns), turn).stored)
      ensures forall other :: other != turn.session ==> State(other) == old(State(other))
    {
      var outcome := oracles.chat(turns, turn);
      turns := turns + 1;
      memory.AppendTranscriptMessages(turn.session, outcome.stored);
      r := outcome.result;
    }

    /**
     The inner loop of `run_task_iteration_inner`. It leaves only by marking the feature or by ending the run, so the
     message it would keep of a refused turn is never read and not kept here.
     */
    method WorkOnFeature(c: Context, f: FeatureRecord) returns (w: FeatureWork, ghost stop: Stop)
      requires c.oracles == oracles && c.policy == policy && policy.Valid()
      modifies this`turns, this`operations, memory
      ensures turns > old(turns) && c.WorkedOn(f, old(turns), turns)
      ensures WorkLaw(c, f, c.Judge(turns - 1, f), old(State(c.request.session)).features, State(c.request.session).features, operations, w, stop)
      ensures State(c.request.session) == old(State(c.request.session)).(features := State(c.request.session).features,
                                          transcript := old(State(c.request.session)).transcript + SaidOn(c, f, old(turns), turns))
      ensures forall other :: other != c.request.session ==> State(other) == old(State(other))
      ensures operations >= old(operations)
    {
      hide SaidOn, MarkFirst;
      var id := c.request.session;
      SaidNext(c, f, turns, turns, State(id).transcript);
      var turnsUsed := 0;
      var retriesRemaining := policy.retryBudget;
      stop := GaveUp;
      while turnsUsed < policy.maxTurnsPerRun
        invariant turnsUsed + retriesRemaining == policy.retryBudget
        invariant turnsUsed < policy.maxTurnsPerRun
        invariant turns == old(turns) + turnsUsed && operations == old(operations)
        invariant forall n :: old(turns) <= n < turns ==> !c.Decisive(c.Judge(n, f), n + 1 - old(turns))
        invariant State(id) == old(State(id)).(transcript := old(State(id)).transcript + SaidOn(c, f, old(turns), turns))
        invariant forall other :: other != id ==> State(other) == old(State(other))
      {
        turnsUsed := turnsUsed + 1;
        SaidNext(c, f, old(turns), turns, old(State(id)).transcript);
        var turn := ExecuteTurn(c.TurnFor(f));
        if turn.Err? {
          if policy.failFast.onChatError || retriesRemaining == 0 || turnsUsed >= policy.maxTurnsPerRun {
            return Broken(turn.error), GaveUp;
          }
          retriesRemaining := retriesRemaining - 1;
          continue;
        }
        var verdict := oracles.validate(turns - 1, f, turn.value);
        if verdict.Err? {
          return Broken(verdict.error), GaveUp;
        }
        if verdict.value {
          var e := MarkPassing(id, f.id);
          if e.Some? {
            return Broken(e.value), if oracles.fault(operations - 1) then MarkRejected else MarkMissed;
          }
          return Marked(turn.value.assistantMessage), LimitReached;
        }
        if policy.failFast.onValidationFailure || retriesRemaining == 0 || turnsUsed >= policy.maxTurnsPerRun {
          return Unmarked(turn.value.assistantMessage), Unvalidated;
        }
        retriesRemaining := retriesRemaining - 1;
      }
      assert false;
    }

    /** `run_task_iteration_inner` up to its outer loop: the context of the run, or its early end. */
    method BeginRun(request: TaskIterationRequest)
      returns (c: Context, ended: Option<Result<TaskIterationResult, HarnessError>>, ghost stop: Stop)
      modifies this`operations
      ensures operations > old(operations)
      ensures c.oracles == oracles && c.policy == policy && c.request == request
      ensures ended.Some? ==> RunLaw(c, State(request.session), turns, State(request.session), turns, operations, [], stop, ended.value)
      ensures ended == None ==> Going(c, State(request.session), turns, [], State(request.session), turns)
    {
      hide AllPassed, MarkAll, Chain, Going, RunLaw, LastId, LastMessage, Ids, Outcome, State, InMemoryMemoryBackend.View;
      var id := request.session;
      c := Context(oracles, policy, request, "");
      ghost var before, start := State(id), turns;
      var bootstrap := Load(id);
      if bootstrap.Err? {
        EndsEarly(c, before, start, operations, LoadRejected, Err(bootstrap.error));
        return c, Some(Err(bootstrap.error)), LoadRejected;
      }
      if bootstrap.value.manifest == None {
        EndsEarly(c, before, start, operations, NotInitialized, Err(NOT_INITIALIZED));
        return c, Some(Err(NOT_INITIALIZED)), NotInitialized;
      }
      var manifest := bootstrap.value.manifest.value;
      c := Context(oracles, policy, request, manifest.currentObjective);
      var sick := oracles.health(id, manifest.initPlan.GetOr(DEFAULT_INIT_PLAN));
      if sick.Some? && policy.failFast.onHealthCheckError {
        EndsEarly(c, before, start, operations, Unhealthy, Err(sick.value));
        return c, Some(Err(sick.value)), Unhealthy;
      }
      Starts(c, before, start);
      if AllPassed(bootstrap.value.features) {
        var r := Ok(TaskIterationResult(id, None, [], [], 0, true, true, request.stream, None));
        OutcomeAtHead(c, [], AllDone, true);
        EndsAtHead(c, before, start, [], State(id), turns, operations, AllDone, r);
        return c, Some(r), AllDone;
      }
      ended, stop := None, AllDone;
    }

    /** `run_task_iteration_inner`, with the features worked on and the reason it stopped. */
    method RunTaskIterationInner(request: TaskIterationRequest)
      returns (r: Result<TaskIterationResult, HarnessError>, ghost works: seq<Work>, ghost stop: Stop, ghost objective: string)
      requires Ready(request.session)
      modifies this`turns, this`operations, memory
      ensures operations > old(operations)
      ensures RunLaw(Context(oracles, policy, request, objective), old(State(request.session)), old(turns),
                     State(request.session), turns, operations, works, stop, r)
      ensures forall other :: other != request.session ==> State(other) == old(State(other))
    {
      hide Going, RunLaw, State, InMemoryMemoryBackend.View;
      ghost var before, start := State(request.session), turns;
      var c, ended, why := BeginRun(request);
      objective := c.objective;
      if ended.Some? {
        return ended.value, [], why, objective;
      }
      r, works, stop := ProcessFeatures(c, before, start);
    }

    /**
     Any run of at most `rounds` features, over any list and with any selector: it has ended as the law says, or it is at
     the head of its loop with that many features marked and nothing else changed.
     */
    method RunAtMost(request: TaskIterationRequest, rounds: nat)
      returns (ended: Option<Result<TaskIterationResult, HarnessError>>, ghost works: seq<Work>, ghost stop: Stop, ghost objective: string)
      requires policy.Valid()
      modifies this`turns, this`operations, memory
      ensures var c := Context(oracles, policy, request, objective);
        if ended.Some? then
          RunLaw(c, old(State(request.session)), old(turns), State(request.session), turns, operations, works, stop, ended.value)
        else
          |works| == rounds && Going(c, old(State(request.session)), old(turns), works, State(request.session), turns)
      ensures forall other :: other != request.session ==> State(other) == old(State(other))
    {
      hide Going, RunLaw, State, InMemoryMemoryBackend.View, Tracks;
      ghost var before, start := State(request.session), turns;
      var c, early, why := BeginRun(request);
      objective, works, stop := c.objective, [], why;
      if early.Some? {
        return early, [], why, objective;
      }
      var limit := policy.Limit();
      var progress := NO_PROGRESS;
      NothingYet(c);
      for i := 0 to rounds
        invariant |works| == i && Going(c, before, start, works, State(request.session), turns) && Tracks(c, works, progress)
        invariant forall other :: other != request.session ==> State(other) == old(State(other))
      {
        WithinLimit(c, before, start, works, State(request.session), turns);
        var step;
        if limit.Some? && i >= limit.value {
          var r;
          r, stop := Conclude(c, before, start, works, progress);
          return Some(r), works, stop, objective;
        }
        step, works, stop := ProcessNext(c, before, start, works, progress);
        if step.Stopped? {
          return Some(step.result), works, stop, objective;
        }
        progress := step.progress;
      }
      ended := None;
    }

    /** One pass of the outer loop of `run_task_iteration_inner`, below the feature limit. */
    method ProcessNext(c: Context, ghost before: SessionState, ghost start: nat, ghost done: seq<Work>, sofar: Progress)
      returns (step: Iteration, ghost works: seq<Work>, ghost stop: Stop)
      requires c.oracles == oracles && c.policy == policy && policy.Valid()
      requires Going(c, before, start, done, State(c.request.session), turns) && Tracks(c, done, sofar)
      requires policy.Limit().Some? ==> |done| < policy.Limit().value
      modifies this`turns, this`operations, memory
      ensures operations > old(operations)
      ensures step.Stopped? ==> RunLaw(c, before, start, State(c.request.session), turns, operations, works, stop, step.result)
      ensures step.Moved? ==>
        && |works| == |done| + 1 && Tracks(c, works, step.progress)
        && Going(c, before, start, works, State(c.request.session), turns)
        && (PicksPending(oracles.select) && PendingAreFirst(old(State(c.request.session)).features) ==>
            && PendingAreFirst(State(c.request.session).features)
            && PendingCount(State(c.request.session).features) < PendingCount(old(State(c.request.session)).features))
      ensures forall other :: other != c.request.session ==> State(other) == old(State(other))
    {
      hide AllPassed, MarkAll, MarkFirst, FindFeature, PendingCount, PendingAreFirst, PicksPending, Chain;
      hide Context.WorkedOn, Context.Judge, Context.Decisive, Going, RunLaw, WorkLaw, LastId, LastMessage, Ids, Validated, Outcome, State, InMemoryMemoryBackend.View;
      var id := c.request.session;
      works, stop := done, LoadRejected;
      TracksLength(c, done, sofar);
      var loaded := Load(id);
      if loaded.Err? {
        EndsAtHead(c, before, start, works, State(id), turns, operations, LoadRejected, Err(loaded.error));
        return Stopped(Err(loaded.error)), works, LoadRejected;
      }
      var features := loaded.value.features;
      if AllPassed(features) {
        var r := Ok(TaskIterationResult(id, sofar.selected, sofar.processed, sofar.validated, |sofar.processed|, true, true, c.request.stream, sofar.lastMessage));
        OutcomeAtHead(c, works, AllDone, true);
        EndsAtHead(c, before, start, works, State(id), turns, operations, AllDone, r);
        return Stopped(r), works, AllDone;
      }
      var choice := oracles.select(features);
      if choice == None {
        EndsAtHead(c, before, start, works, State(id), turns, operations, NoWork, Err(NO_WORK));
        return Stopped(Err(NO_WORK)), works, NoWork;
      }
      var feature := choice.value;
      ghost var now, at := State(id), turns;
      var work, why := WorkOnFeature(c, feature);
      Continues(c, before, start, works, now, at, feature, State(id), turns, operations, work, why);
      works := works + [Work(feature, at, turns)];
      var processed := sofar.processed + [feature.id];
      match work {
        case Marked(message) =>
          if PicksPending(oracles.select) && PendingAreFirst(now.features) {
            StaysReady(oracles.select, now.features, feature, c, turns, State(id).features, operations, work, why);
          }
          step := Moved(Progress(processed, sofar.validated + [feature.id], Some(feature.id), Some(message)));
        case Unmarked(message) =>
          step, stop := Stopped(Ok(TaskIterationResult(id, Some(feature.id), processed, sofar.validated, |processed|, false, false, c.request.stream, Some(message)))), Unvalidated;
        case Broken(error) =>
          step, stop := Stopped(Err(error)), why;
      }
    }

    /** The end of `run_task_iteration_inner` behind its outer loop. */
    method Conclude(c: Context, ghost before: SessionState, ghost start: nat, ghost works: seq<Work>, sofar: Progress)
      returns (r: Result<TaskIterationResult, HarnessError>, ghost stop: Stop)
      requires c.oracles == oracles && c.policy == policy && policy.Valid()
      requires Going(c, before, start, works, State(c.request.session), turns) && Tracks(c, works, sofar)
      requires policy.Limit() == Some(|works|)
      modifies this`operations
      ensures operations > old(operations)
      ensures RunLaw(c, before, start, State(c.request.session), turns, operations, works, stop, r)
    {
      hide AllPassed, Going, RunLaw, LastId, LastMessage, Ids, Validated, Outcome, State, InMemoryMemoryBackend.View;
      var id := c.request.session;
      TracksLength(c, works, sofar);
      var last := Load(id);
      if last.Err? {
        EndsAtHead(c, before, start, works, State(id), turns, operations, LoadRejected, Err(last.error));
        return Err(last.error), LoadRejected;
      }
      r := Ok(TaskIterationResult(id, sofar.selected, sofar.processed, sofar.validated, |sofar.processed|, true, AllPassed(last.value.features), c.request.stream, sofar.lastMessage));
      stop := LimitReached;
      OutcomeAtHead(c, works, LimitReached, AllPassed(last.value.features));
      EndsAtHead(c, before, start, works, State(id), turns, operations, LimitReached, r);
    }

    /** The outer loop of `run_task_iteration_inner`. */
    method ProcessFeatures(c: Context, ghost before: SessionState, ghost start: nat)
      returns (r: Result<TaskIterationResult, HarnessError>, ghost works: seq<Work>, ghost stop: Stop)
      requires c.oracles == oracles && c.policy == policy && Ready(c.request.session)
      requires Going(c, before, start, [], State(c.request.session), turns)
      modifies this`turns, this`operations, memory
      ensures operations > old(operations)
      ensures RunLaw(c, before, start, State(c.request.session), turns, operations, works, stop, r)
      ensures forall other :: other != c.request.session ==> State(other) == old(State(other))
    {
      hide PendingCount, PendingAreFirst, PicksPending, Going, RunLaw, Tracks, State, InMemoryMemoryBackend.View;
      var id := c.request.session;
      works, stop := [], AllDone;
      NothingYet(c);
      var limit, progress := policy.Limit(), NO_PROGRESS;
      ghost var list := State(id).features;
      TracksLength(c, works, progress);
      while limit == None || |progress.processed| < limit.value
        invariant operations >= old(operations) && list == State(id).features
        invariant Going(c, before, start, works, State(id), turns) && Tracks(c, works, progress)
        invariant |progress.processed| == |works| && (limit.Some? ==> |works| <= limit.value)
        invariant forall other :: other != id ==> State(other) == old(State(other))
        invariant Ready(id)
        decreases if limit == None then PendingCount(list) else limit.value - |progress.processed|
      {
        var step;
        step, works, stop := ProcessNext(c, before, start, works, progress);
        if step.Stopped? {
          return step.result, works, stop;
        }
        progress, list := step.progress, State(id).features;
        TracksLength(c, works, progress);
      }
      r, stop := Conclude(c, before, start, works, progress);
    }

    /** `record_final_handoff`. */
    method RecordFinalHandoff(request: TaskIterationRequest, startedAt: Time, status: RunStatus, note: string) returns (e: Option<HarnessError>)
      modifies this`operations, this`ticks, memory
      ensures operations == old(operations) + (if oracles.fault(old(operations)) then 1 else 2)
      ensures ticks == old(ticks) + (if oracles.fault(old(operations)) then 1 else 2)
      ensures e == if oracles.fault(old(operations)) || oracles.fault(old(operations) + 1) then Some(MEMORY_FAULT) else None
      ensures State(request.session) == HandedOff(oracles, request, old(State(request.session)), old(operations), old(ticks), startedAt, status, note)
      ensures forall other :: other != request.session ==> State(other) == old(State(other))
    {
      var completedAt := Now();
      e := RecordCheckpoint(request.session, RunCheckpoint(request.runId, startedAt, Some(completedAt), status, Some(note)));
      if e.Some? {
        return;
      }
      var createdAt := Now();
      e := AppendProgress(request.session, ProgressEntry(request.runId, note, createdAt));
    }

    /**
     `run_task_iteration_with_observer_inner`: without a chat service nothing is recorded; otherwise the run is framed
     by a checkpoint in progress and a final one with a progress entry, whatever its result, as far as the memory accepts them.
     */
    method RunTaskIteration(request: TaskIterationRequest)
      returns (r: Result<TaskIterationResult, HarnessError>, ghost run: TaskRun)
      requires Ready(request.session)
      modifies this`turns, this`operations, this`ticks, memory
      ensures TaskLaw(Settings(), request, old(State(request.session)), old(Counts()), State(request.session), Counts(), run, r)
      ensures forall other :: other != request.session ==> State(other) == old(State(other))
    {
      hide RunLaw, HandedOff, State, InMemoryMemoryBackend.View, PicksPending, PendingAreFirst;
      run := TaskRun(NEW_SESSION, 0, Err(NO_CHAT), [], AllDone, "");
      if !hasChat {
        return Err(NO_CHAT), run;
      }
      var id := request.session;
      var startedAt := Now();
      var checkpointAt := Now();
      var rejected := RecordCheckpoint(id, RunCheckpoint(request.runId, checkpointAt, None, InProgress, None));
      if rejected.Some? {
        return Err(rejected.value), run;
      }
      ghost var works, stop, objective;
      r, works, stop, objective := RunTaskIterationInner(request);
      run := TaskRun(State(id), operations, r, works, stop, objective);
      var status := RunFailed;
      if r.Ok? {
        if r.value.noPendingFeatures {
          status := Succeeded;
        } else if r.value.validated {
          status := Succeeded;
        }
      }
      var e := RecordFinalHandoff(request, startedAt, status, oracles.note(r));
      if e.Some? {
        r := Err(e.value);
      }
    }

    // ---- initializer and phases ----

    /** `run_initializer_inner`: it stores nothing unless the request is valid, and never overwrites a session. */
    method RunInitializer(request: InitializerRequest) returns (r: Result<InitializerResult, HarnessError>)
      modifies this`operations, this`ticks, memory
      ensures InitializerLaw(Settings(), request, old(State(request.session)), old(Counts()), State(request.session), Counts(), r)
      ensures forall other :: other != request.session ==> State(other) == old(State(other))
    {
      hide Text.IsBlank, Acceptable, StarterFeatureList, Apply, InitializerLaw;
      ghost var before, at := State(request.session), Counts();
      if Text.IsBlank(request.currentObjective) {
        r := Err(HarnessError(InvalidHarnessRequest, "current_objective must not be empty"));
        InitializerRefused(Settings(), request, before, at, r);
        return;
      }
      var list := if request.featureList == [] then StarterFeatureList(request.currentObjective) else request.featureList;
      var invalid := ValidateFeatureList(list);
      if invalid.Some? {
        InitializerRefused(Settings(), request, before, at, Err(invalid.value));
        return Err(invalid.value);
      }
      var summary := request.progressSummary;
      if Text.IsBlank(summary) {
        summary := "Initializer scaffold created for objective: " + request.currentObjective;
      }
      var initPlan := request.initPlan.GetOr(DEFAULT_INIT_PLAN);
      var manifest := SessionManifest(request.session, schemaVersion, harnessVersion, request.activeBranch, request.currentObjective, None, Some(initPlan), map[]);
      var createdAt := Now();
      var startedAt := Now();
      operations := operations + 1;
      if oracles.fault(operations - 1) {
        InitializerRejected(Settings(), request, before, at);
        return Err(MEMORY_FAULT);
      }
      var created := memory.InitializeSessionIfMissing(request.session, manifest, list,
        Some(ProgressEntry(request.runId, summary, createdAt)), Some(RunCheckpoint(request.runId, startedAt, None, InProgress, None)));
      hide State, InMemoryMemoryBackend.View;
      var state := Load(request.session);
      if state.Err? {
        r := Err(state.error);
      } else if state.value.manifest == None {
        r := Err(HarnessError(MemoryFault, "manifest missing after initializer run"));
      } else {
        var stored := state.value.manifest.value;
        r := Ok(InitializerResult(stored.sessionId, created, stored.schemaVersion, stored.harnessVersion, |state.value.features|));
      }
      InitializerStores(Settings(), request, before, at, State(request.session), created, r);
    }

    /** `run`: an initializer for a session without a manifest, a task run otherwise. */
    method Run(request: RuntimeRunRequest) returns (r: Result<RuntimeRunOutcome, HarnessError>, ghost run: TaskRun)
      requires Ready(request.session)
      modifies this`turns, this`operations, this`ticks, memory
      ensures PhaseLaw(Settings(), request, old(State(request.session)), old(Counts()), State(request.session), Counts(), run, r)
      ensures forall other :: other != request.session ==> State(other) == old(State(other))
    {
      hide PendingAreFirst, PicksPending, InitializerLaw, TaskLaw;
      run := TaskRun(NEW_SESSION, 0, Err(NO_CHAT), [], AllDone, "");
      operations := operations + 1;
      if oracles.fault(operations - 1) {
        return Err(MEMORY_FAULT), run;
      }
      var initialized := memory.IsInitialized(request.session);
      if !initialized {
        var summary := request.progressSummary.GetOr("Initializer scaffold created");
        var result := RunInitializer(InitializerRequest(request.session, request.runId, request.activeBranch, request.currentObjective,
                                                        request.initPlan, request.featureList, summary));
        r := if result.Ok? then Ok(Initialized(result.value)) else Err(result.error);
      } else {
        var result;
        result, run := RunTaskIteration(TaskIterationRequest(request.session, request.runId, request.stream, request.promptOverride));
        r := if result.Ok? then Ok(Iterated(result.value)) else Err(result.error);
      }
    }

    /**
     Any sequence of runs over any sessions of a memory whose lists have distinct ids: every run ends, in every mode, as
     the law of its phase says, from the state and the counters the run before it left.
     */
    method RunAll(requests: seq<RuntimeRunRequest>) returns (results: seq<Result<RuntimeRunOutcome, HarnessError>>, ghost stages: seq<Stage>)
      requires policy.Valid() && (policy.Limit() == None ==> PicksPending(oracles.select))
      requires forall id :: DistinctFeatureIds(State(id).features)
      modifies this`turns, this`operations, this`ticks, memory
      ensures History(Settings(), requests, stages, results)
      ensures stages[0].sessions == old(memory.sessions) && stages[0].at == old(Counts())
      ensures stages[|requests|].sessions == memory.sessions && stages[|requests|].at == Counts()
      ensures forall id :: DistinctFeatureIds(State(id).features)
    {
      hide PicksPending, Evolves, DistinctFeatureIds, PendingAreFirst, PhaseLaw, History;
      ghost var idle := TaskRun(NEW_SESSION, 0, Err(NO_CHAT), [], AllDone, "");
      results, stages := [], [Stage(memory.sessions, Counts(), idle)];
      NoRuns(Settings(), stages);
      for i := 0 to |requests|
        invariant |stages| == i + 1 && |results| == i
        invariant History(Settings(), requests[..i], stages, results)
        invariant stages[0].sessions == old(memory.sessions) && stages[0].at == old(Counts())
        invariant stages[i].sessions == memory.sessions && stages[i].at == Counts()
        invariant forall id :: DistinctFeatureIds(State(id).features)
      {
        var id := requests[i].session;
        ghost var before, at := State(id), Counts();
        DistinctIsReady(before);
        label Here:
        ghost var run;
        var result;
        result, run := Run(requests[i]);
        ghost var here, next := stages[i].(run := run), Stage(memory.sessions, Counts(), idle);
        forall other | other != id ensures StateIn(next.sessions, other) == StateIn(here.sessions, other) {
          assert State(other) == old@Here(State(other));
        }
        OneMoreRun(Settings(), requests[..i], stages, results, requests[i], run, next, result);
        assert requests[..i + 1] == requests[..i] + [requests[i]];
        results, stages := results + [result], stages[..i] + [here, next];
        PhaseEvolves(Settings(), requests[i], before, at, State(id), Counts(), run, result);
        DistinctStays(before, State(id));
        forall other | other != id ensures DistinctFeatureIds(State(other).features) {
          assert State(other) == old@Here(State(other));
        }
      }
      assert requests[..|requests|] == requests;
    }
  }

  lemma NoRuns(g: Setting, stages: seq<Stage>)
    requires |stages| == 1
    ensures History(g, [], stages, [])
  {
  }
}
