/** Run policy, requests and results of fharness/src/types.rs, and the feature list as the harness sees it. */
module HarnessPolicy {
  import opened Wrappers
  import opened ProviderModel
  import opened MemoryModel
  import opened ChatTurn
  import Text

  datatype HarnessErrorKind = InvalidHarnessRequest | MemoryFault | ChatFault | ValidationFault | HealthCheckFault | NotReady

  datatype HarnessError = HarnessError(kind: HarnessErrorKind, message: string)

  datatype RunMode = StrictIncremental | BoundedBatch | UnlimitedBatch

  datatype FailFast = FailFast(onHealthCheckError: bool, onChatError: bool, onValidationFailure: bool)

  datatype RunPolicy = RunPolicy(mode: RunMode, maxTurnsPerRun: nat, maxFeaturesPerRun: nat, retryBudget: nat, failFast: FailFast)
  {
    /** `validate`, as the builder calls it. */
    predicate Valid() {
      && maxTurnsPerRun >= 1
      && match mode
         case StrictIncremental => maxFeaturesPerRun == 1
         case BoundedBatch => maxFeaturesPerRun >= 1
         case UnlimitedBatch => true
    }

    /** `max_features_per_run_limit`. */
    function Limit(): Option<nat> {
      match mode
      case StrictIncremental => Some(1)
      case BoundedBatch => Some(maxFeaturesPerRun)
      case UnlimitedBatch => None
    }

    /** The most turns one feature can take. */
    function TurnsPerFeature(): nat {
      if maxTurnsPerRun <= retryBudget + 1 then maxTurnsPerRun else retryBudget + 1
    }
  }

  datatype TaskIterationRequest = TaskIterationRequest(session: SessionId, runId: string, stream: bool, promptOverride: Option<string>)

  datatype TaskIterationResult = TaskIterationResult(
    sessionId: SessionId,
    selectedFeatureId: Option<string>,
    processedFeatureIds: seq<string>,
    validatedFeatureIds: seq<string>,
    processedFeatureCount: nat,
    validated: bool,
    noPendingFeatures: bool,
    usedStream: bool,
    assistantMessage: Option<string>)

  /** The prompt of a turn: the override, or the one built from the feature and the objective. */
  datatype Prompt = Override(text: string) | ForFeature(feature: FeatureRecord, objective: string)

  datatype TurnRequest = TurnRequest(session: SessionId, prompt: Prompt, stream: bool)

  /** One chat turn as the harness sees it: its result and the messages it left in the transcript. */
  datatype ChatOutcome = ChatOutcome(result: Result<ChatTurnResult, HarnessError>, stored: seq<Message>)

  type Selector = seq<FeatureRecord> -> Option<FeatureRecord>

  /**
   The surroundings of the harness. Chat and validation answer by how many turns were taken before, the clock by how
   often it was read, and `fault` says which memory operations are rejected.
   */
  datatype Oracles = Oracles(
    chat: (nat, TurnRequest) -> ChatOutcome,
    validate: (nat, FeatureRecord, ChatTurnResult) -> Result<bool, HarnessError>,
    health: (SessionId, seq<InitStep>) -> Option<HarnessError>,
    select: Selector,
    fault: nat -> bool,
    clock: nat -> Time,
    note: Result<TaskIterationResult, HarnessError> -> string)

  // ---- feature lists ----

  /** `all_required_features_passed`. */
  predicate AllPassed(fs: seq<FeatureRecord>) {
    fs != [] && forall i :: 0 <= i < |fs| ==> fs[i].passes
  }

  /** `FirstPendingFeatureSelector::select`. */
  function FirstPending(fs: seq<FeatureRecord>): Option<FeatureRecord> {
    if fs == [] then None
    else if !fs[0].passes then Some(fs[0])
    else FirstPending(fs[1..])
  }

  /** The selector answers with the first pending feature, and with none exactly when all pass. */
  lemma {:induction false} FirstPendingIsFirst(fs: seq<FeatureRecord>) returns (at: nat)
    ensures FirstPending(fs).Some? ==> at < |fs| && fs[at] == FirstPending(fs).value && !fs[at].passes && forall j :: 0 <= j < at ==> fs[j].passes
    ensures FirstPending(fs) == None <==> forall i :: 0 <= i < |fs| ==> fs[i].passes
  {
    if fs == [] || !fs[0].passes {
      at := 0;
    } else {
      var rest := FirstPendingIsFirst(fs[1..]);
      at := rest + 1;
      assert forall i :: 0 <= i < |fs| - 1 ==> fs[1..][i] == fs[i + 1];
      assert forall i :: 0 < i < |fs| ==> fs[i] == fs[1..][i - 1];
    }
  }

  /** The features marked one after the other. */
  function MarkAll(fs: seq<FeatureRecord>, ids: seq<string>): seq<FeatureRecord> {
    if ids == [] then fs else MarkFirst(MarkAll(fs, ids[..|ids| - 1]), ids[|ids| - 1], true)
  }

  function PendingCount(fs: seq<FeatureRecord>): nat {
    if fs == [] then 0 else (if fs[0].passes then 0 else 1) + PendingCount(fs[1..])
  }

  ghost predicate DistinctFeatureIds(fs: seq<FeatureRecord>) {
    forall i, j :: 0 <= i < j < |fs| ==> fs[i].id != fs[j].id
  }

  /** No earlier record shares the id of a pending one. */
  ghost predicate PendingAreFirst(fs: seq<FeatureRecord>) {
    forall i :: 0 <= i < |fs| && !fs[i].passes ==> forall j :: 0 <= j < i ==> fs[j].id != fs[i].id
  }

  /** The selector answers with a pending member of the list, if at all. */
  ghost predicate PicksPending(select: Selector) {
    forall fs: seq<FeatureRecord> :: select(fs).Some? ==> !select(fs).value.passes && select(fs).value in fs
  }

  lemma DefaultSelectorPicksPending()
    ensures PicksPending(FirstPending)
  {
    forall fs: seq<FeatureRecord> | FirstPending(fs).Some? ensures !FirstPending(fs).value.passes && FirstPending(fs).value in fs {
      var i := FirstPendingIsFirst(fs);
    }
  }

  lemma {:induction false} PendingCountUpdate(fs: seq<FeatureRecord>, i: nat)
    requires i < |fs| && !fs[i].passes
    ensures PendingCount(fs[i := fs[i].(passes := true)]) == PendingCount(fs) - 1
  {
    var marked := fs[i := fs[i].(passes := true)];
    if i == 0 {
      assert marked[1..] == fs[1..];
    } else {
      assert marked[1..] == fs[1..][i - 1 := fs[i].(passes := true)];
      PendingCountUpdate(fs[1..], i - 1);
    }
  }

  /** Marking a pending record that is the first of its id leaves one fewer pending, and the others still first. */
  lemma MarkPending(fs: seq<FeatureRecord>, f: FeatureRecord)
    requires PendingAreFirst(fs) && f in fs && !f.passes
    ensures FindFeature(fs, f.id).Some?
    ensures PendingCount(MarkFirst(fs, f.id, true)) == PendingCount(fs) - 1
    ensures PendingAreFirst(MarkFirst(fs, f.id, true))
  {
    var i :| 0 <= i < |fs| && fs[i] == f;
    var at := FindFeature(fs, f.id).value;
    assert at == i;
    PendingCountUpdate(fs, i);
  }

  lemma MarkKeepsShape(fs: seq<FeatureRecord>, id: string)
    ensures var marked := MarkFirst(fs, id, true);
      && |marked| == |fs|
      && (forall i :: 0 <= i < |fs| ==> marked[i] == fs[i].(passes := marked[i].passes) && (fs[i].passes ==> marked[i].passes))
      && (DistinctFeatureIds(fs) ==> forall i :: 0 <= i < |fs| ==> marked[i].passes == (fs[i].passes || fs[i].id == id))
  {
  }

  /** Passing never reverts and nothing but the pass flags changes; with distinct ids exactly the named features pass in addition. */
  lemma {:induction false} MarkAllLaw(fs: seq<FeatureRecord>, ids: seq<string>)
    ensures var marked := MarkAll(fs, ids);
      && |marked| == |fs|
      && (forall i :: 0 <= i < |fs| ==> marked[i] == fs[i].(passes := marked[i].passes) && (fs[i].passes ==> marked[i].passes))
      && (DistinctFeatureIds(fs) ==> forall i :: 0 <= i < |fs| ==> marked[i].passes == (fs[i].passes || fs[i].id in ids))
  {
    if ids != [] {
      var before, last := ids[..|ids| - 1], ids[|ids| - 1];
      MarkAllLaw(fs, before);
      MarkKeepsShape(MarkAll(fs, before), last);
      assert ids == before + [last];
    }
  }

  lemma DistinctKept(fs: seq<FeatureRecord>, ids: seq<string>)
    requires DistinctFeatureIds(fs)
    ensures DistinctFeatureIds(MarkAll(fs, ids)) && PendingAreFirst(MarkAll(fs, ids))
  {
    MarkAllLaw(fs, ids);
  }

  // ---- runs over one list with the default selector and a validator that accepts everything ----

  /** The stored list after `n` completed iterations of an unlimited run in which every turn validates. */
  function Iterate(fs: seq<FeatureRecord>, n: nat): seq<FeatureRecord>
    decreases n
  {
    if n == 0 then fs
    else
      var earlier := Iterate(fs, n - 1);
      var f := FirstPending(earlier);
      if f == None then earlier else MarkFirst(earlier, f.value.id, true)
  }

  lemma IterateStep(fs: seq<FeatureRecord>, n: nat)
    ensures Iterate(fs, 0) == fs
    ensures n > 0 ==>
      var earlier := Iterate(fs, n - 1);
      Iterate(fs, n) == if FirstPending(earlier).Some? then MarkFirst(earlier, FirstPending(earlier).value.id, true) else earlier
  {
    hide FirstPending, MarkFirst;
  }

  lemma MarkSparesShadowed(fs: seq<FeatureRecord>, i: nat, j: nat, id: string)
    requires j < i < |fs| && fs[j].id == fs[i].id && !fs[i].passes
    ensures var marked := MarkFirst(fs, id, true);
      |marked| == |fs| && marked[j].id == marked[i].id && !marked[i].passes
  {
    var at := FindFeature(fs, id);
    assert at.Some? ==> at.value != i;
  }

  /** A pending record behind one of the same id stays pending for ever. */
  lemma {:induction false} ShadowedStaysPending(fs: seq<FeatureRecord>, i: nat, j: nat, n: nat)
    requires j < i < |fs| && fs[j].id == fs[i].id && !fs[i].passes
    ensures var later := Iterate(fs, n);
      |later| == |fs| && later[j].id == later[i].id && !later[i].passes
    decreases n
  {
    hide MarkFirst, FirstPending, FindFeature, Iterate;
    IterateStep(fs, n);
    if n > 0 {
      ShadowedStaysPending(fs, i, j, n - 1);
      var earlier := Iterate(fs, n - 1);
      var f := FirstPending(earlier);
      if f.Some? {
        MarkSparesShadowed(earlier, i, j, f.value.id);
      }
    }
  }

  lemma {:induction false} FirstsComplete(fs: seq<FeatureRecord>, n: nat)
    requires PendingAreFirst(fs) && n <= PendingCount(fs)
    ensures var later := Iterate(fs, n);
      |later| == |fs| && PendingAreFirst(later) && PendingCount(later) == PendingCount(fs) - n
    decreases n
  {
    hide Iterate, PendingCount, PendingAreFirst, FirstPending, MarkFirst, PicksPending;
    IterateStep(fs, n);
    if n > 0 {
      FirstsComplete(fs, n - 1);
      MarkNext(Iterate(fs, n - 1));
    }
  }

  lemma MarkNext(fs: seq<FeatureRecord>)
    requires PendingAreFirst(fs) && PendingCount(fs) > 0
    ensures FirstPending(fs).Some?
    ensures var marked := MarkFirst(fs, FirstPending(fs).value.id, true);
      |marked| == |fs| && PendingAreFirst(marked) && PendingCount(marked) == PendingCount(fs) - 1
  {
    hide PendingCount, PendingAreFirst, FirstPending, MarkFirst;
    NonePendingIff(fs);
    var at := FirstPendingIsFirst(fs);
    MarkPending(fs, FirstPending(fs).value);
    MarkKeepsShape(fs, FirstPending(fs).value.id);
  }

  lemma {:induction false} NonePendingIff(fs: seq<FeatureRecord>)
    ensures PendingCount(fs) == 0 <==> forall i :: 0 <= i < |fs| ==> fs[i].passes
  {
    if fs != [] {
      NonePendingIff(fs[1..]);
      assert forall i :: 0 <= i < |fs| - 1 ==> fs[1..][i] == fs[i + 1];
    }
  }

  /** Marking the first pending feature again and again comes to an end exactly when no pending record hides behind another of its id. */
  lemma IterationEndsIff(fs: seq<FeatureRecord>)
    ensures (exists n: nat :: FirstPending(Iterate(fs, n)) == None) <==> PendingAreFirst(fs)
  {
    if PendingAreFirst(fs) {
      var n := PendingCount(fs);
      FirstsComplete(fs, n);
      NonePendingIff(Iterate(fs, n));
      var at := FirstPendingIsFirst(Iterate(fs, n));
      assert FirstPending(Iterate(fs, n)) == None;
    } else {
      var i :| 0 <= i < |fs| && !fs[i].passes && exists j :: 0 <= j < i && fs[j].id == fs[i].id;
      var j :| 0 <= j < i && fs[j].id == fs[i].id;
      forall n: nat ensures FirstPending(Iterate(fs, n)).Some? {
        ShadowedStaysPending(fs, i, j, n);
        var at := FirstPendingIsFirst(Iterate(fs, n));
      }
    }
  }

  // ---- processing order ----

  function PendingIds(fs: seq<FeatureRecord>): seq<string> {
    if fs == [] then [] else (if fs[0].passes then [] else [fs[0].id]) + PendingIds(fs[1..])
  }

  /** Each processed feature is the selector's choice from the list in which the earlier ones pass. */
  ghost predicate SelectedInTurn(select: Selector, fs: seq<FeatureRecord>, processed: seq<string>) {
    forall k :: 0 <= k < |processed| ==>
      var choice := select(MarkAll(fs, processed[..k]));
      choice.Some? && choice.value.id == processed[k]
  }

  lemma SelectedStep(select: Selector, fs: seq<FeatureRecord>, processed: seq<string>, id: string)
    ensures SelectedInTurn(select, fs, processed + [id]) <==>
      && SelectedInTurn(select, fs, processed)
      && select(MarkAll(fs, processed)).Some? && select(MarkAll(fs, processed)).value.id == id
  {
    hide MarkAll;
    var more := processed + [id];
    assert forall k :: 0 <= k < |processed| ==> more[..k] == processed[..k] && more[k] == processed[k];
    assert more[..|processed|] == processed && more[|processed|] == id;
    if SelectedInTurn(select, fs, more) {
      assert forall k :: 0 <= k < |processed| ==> var choice := select(MarkAll(fs, more[..k])); choice.Some? && choice.value.id == more[k];
    }
  }

  lemma {:induction false} FirstPendingId(fs: seq<FeatureRecord>)
    ensures FirstPending(fs).Some? <==> PendingIds(fs) != []
    ensures FirstPending(fs).Some? ==> FirstPending(fs).value.id == PendingIds(fs)[0]
  {
    if fs != [] {
      FirstPendingId(fs[1..]);
    }
  }

  lemma {:induction false} PendingIdsAfterMark(fs: seq<FeatureRecord>, i: nat)
    requires i < |fs| && !fs[i].passes && forall j :: 0 <= j < i ==> fs[j].passes
    ensures PendingIds(fs) != [] && PendingIds(fs[i := fs[i].(passes := true)]) == PendingIds(fs)[1..]
  {
    var marked := fs[i := fs[i].(passes := true)];
    if i == 0 {
      assert marked[1..] == fs[1..];
    } else {
      assert marked[1..] == fs[1..][i - 1 := fs[i].(passes := true)];
      PendingIdsAfterMark(fs[1..], i - 1);
    }
  }

  lemma FirstPendingMarked(fs: seq<FeatureRecord>)
    requires DistinctFeatureIds(fs) && FirstPending(fs).Some?
    ensures var id := FirstPending(fs).value.id;
      PendingIds(fs) != [] && PendingIds(fs)[0] == id && PendingIds(MarkFirst(fs, id, true)) == PendingIds(fs)[1..]
  {
    hide PendingIds;
    FirstPendingId(fs);
    var f := FirstPending(fs).value;
    var i := FirstPendingIsFirst(fs);
    assert FindFeature(fs, f.id) == Some(i);
    PendingIdsAfterMark(fs, i);
  }

  lemma MarkNone(fs: seq<FeatureRecord>)
    ensures MarkAll(fs, []) == fs
  {
  }

  lemma MarkAllAppend(fs: seq<FeatureRecord>, ids: seq<string>, id: string)
    ensures MarkAll(fs, ids + [id]) == MarkFirst(MarkAll(fs, ids), id, true)
  {
    hide MarkFirst;
    assert (ids + [id])[..|ids|] == ids;
  }

  /** With the default selector and distinct ids the processed features are the first pending ones, in list order. */
  lemma {:induction false} ProcessedInListOrder(fs: seq<FeatureRecord>, processed: seq<string>)
    requires DistinctFeatureIds(fs) && SelectedInTurn(FirstPending, fs, processed)
    ensures |processed| <= |PendingIds(fs)| && processed == PendingIds(fs)[..|processed|]
    ensures PendingIds(MarkAll(fs, processed)) == PendingIds(fs)[|processed|..]
    decreases |processed|
  {
    hide PendingIds, MarkFirst, MarkAll, FirstPending, DistinctFeatureIds, PendingAreFirst, SelectedInTurn;
    if processed == [] {
      MarkNone(fs);
    } else {
      var n := |processed| - 1;
      var before, id := processed[..n], processed[n];
      assert processed == before + [id];
      SelectedStep(FirstPending, fs, before, id);
      ProcessedInListOrder(fs, before);
      DistinctKept(fs, before);
      FirstPendingMarked(MarkAll(fs, before));
      MarkAllAppend(fs, before, id);
      assert PendingIds(fs)[n..][1..] == PendingIds(fs)[n + 1..];
    }
  }
}
