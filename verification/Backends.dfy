/**
 What a durable backend may and may not change of the in-memory semantics: the session id inside a manifest is
 replaced by the key it is stored under, SQLite reads an empty init plan back as none, and times before the
 epoch are refused.
 */
module Backends {
  import opened Wrappers
  import opened ProviderModel
  import opened MemoryModel
  import opened MemoryCodec

  datatype Backend = Sqlite | Filesystem

  function CanonManifest(b: Backend, id: SessionId, m: SessionManifest): SessionManifest {
    m.(sessionId := id, initPlan := if b == Sqlite && m.initPlan == Some([]) then None else m.initPlan)
  }

  function Canon(b: Backend, id: SessionId, s: SessionState): SessionState {
    match s.manifest
    case None => s
    case Some(m) => s.(manifest := Some(CanonManifest(b, id, m)))
  }

  function CanonReply(b: Backend, id: SessionId, r: Reply): Reply {
    match r
    case Loaded(state) =>
      (match state.manifest
       case None => r
       case Some(m) => Loaded(state.(manifest := Some(CanonManifest(b, id, m)))))
    case _ => r
  }

  /** The operation stores no time before the epoch. */
  predicate TimesOk(op: Op) {
    match op
    case Initialize(_, _, _, entry, checkpoint) =>
      (entry.Some? ==> PostEpoch(entry.value)) && (checkpoint.Some? ==> CheckpointPostEpoch(checkpoint.value))
    case AppendProgress(_, entry) => PostEpoch(entry)
    case RecordCheckpoint(_, checkpoint) => CheckpointPostEpoch(checkpoint)
    case _ => true
  }

  /** The times matter to this call: an initialization of an initialized session stores nothing. */
  predicate Storable(s: SessionState, op: Op) {
    TimesOk(op) || (op.Initialize? && s.manifest.Some?)
  }

  /**
   The effect of an operation on a durable backend. A refused time leaves a file untouched; SQLite's
   initialization has by then written the manifest, the features and an acceptable progress entry.
   */
  function DurableApply(b: Backend, s: SessionState, op: Op): (SessionState, Reply) {
    if Storable(s, op) then
      var (s', r) := Apply(s, op);
      (Canon(b, op.session, s'), CanonReply(b, op.session, r))
    else if b == Sqlite && op.Initialize? then
      var written := s.(manifest := Some(CanonManifest(b, op.session, op.manifest)), features := op.features);
      (if op.entry.Some? && PostEpoch(op.entry.value) then written.(progress := s.progress + [op.entry.value]) else written,
       Failed(InvalidTime))
    else
      (s, Failed(InvalidTime))
  }

  // The cases of `DurableApply` that touch one list, on a canonical state.

  lemma AppendProgressStep(b: Backend, s: SessionState, id: SessionId, entry: ProgressEntry)
    requires Canon(b, id, s) == s
    ensures DurableApply(b, s, AppendProgress(id, entry))
         == if PostEpoch(entry) then (s.(progress := s.progress + [entry]), Done) else (s, Failed(InvalidTime))
  {
  }

  lemma RecordCheckpointStep(b: Backend, s: SessionState, id: SessionId, checkpoint: RunCheckpoint)
    requires Canon(b, id, s) == s
    ensures DurableApply(b, s, RecordCheckpoint(id, checkpoint))
         == if CheckpointPostEpoch(checkpoint) then (s.(checkpoints := s.checkpoints + [checkpoint]), Done) else (s, Failed(InvalidTime))
  {
  }

  /** The SQLite initialization of a session, statement by statement. */
  lemma InitializeStep(s: SessionState, id: SessionId, manifest: SessionManifest, features: seq<FeatureRecord>, entry: Option<ProgressEntry>, checkpoint: Option<RunCheckpoint>)
    ensures var result := DurableApply(Sqlite, s, Initialize(id, manifest, features, entry, checkpoint));
      var written := s.(manifest := Some(CanonManifest(Sqlite, id, manifest)), features := features);
      var progressed := if entry.Some? then written.(progress := s.progress + [entry.value]) else written;
      if s.manifest.Some? then
        result == (Canon(Sqlite, id, s), Flag(false))
      else if entry.Some? && !PostEpoch(entry.value) then
        result == (written, Failed(InvalidTime))
      else if checkpoint.Some? && !CheckpointPostEpoch(checkpoint.value) then
        result == (progressed, Failed(InvalidTime))
      else
        result == (if checkpoint.Some? then progressed.(checkpoints := s.checkpoints + [checkpoint.value]) else progressed, Flag(true))
  {
    assert s.progress + [] == s.progress && s.checkpoints + [] == s.checkpoints;
  }

  /** The same initialization on a session file, which is written at the end. */
  lemma FileInitializeStep(s: SessionState, id: SessionId, manifest: SessionManifest, features: seq<FeatureRecord>, entry: Option<ProgressEntry>, checkpoint: Option<RunCheckpoint>)
    requires Canon(Filesystem, id, s) == s
    ensures var result := DurableApply(Filesystem, s, Initialize(id, manifest, features, entry, checkpoint));
      var written := s.(manifest := Some(CanonManifest(Filesystem, id, manifest)), features := features);
      var progressed := if entry.Some? then written.(progress := s.progress + [entry.value]) else written;
      if s.manifest.Some? then
        result == (s, Flag(false))
      else if (entry.Some? && !PostEpoch(entry.value)) || (checkpoint.Some? && !CheckpointPostEpoch(checkpoint.value)) then
        result == (s, Failed(InvalidTime))
      else
        result == (if checkpoint.Some? then progressed.(checkpoints := s.checkpoints + [checkpoint.value]) else progressed, Flag(true))
  {
    assert s.progress + [] == s.progress && s.checkpoints + [] == s.checkpoints;
  }

  lemma FeaturesStep(b: Backend, s: SessionState, id: SessionId, features: seq<FeatureRecord>)
    requires Canon(b, id, s) == s
    ensures DurableApply(b, s, ReplaceFeatures(id, features)) == (s.(features := features), Done)
  {
  }

  lemma UpdateStep(b: Backend, s: SessionState, id: SessionId, featureId: string, passes: bool)
    requires Canon(b, id, s) == s
    ensures DurableApply(b, s, UpdateFeaturePass(id, featureId, passes))
         == var at := FindFeature(s.features, featureId);
            if at.Some? then (s.(features := s.features[at.value := s.features[at.value].(passes := passes)]), Done)
            else (s, Failed(NotFound))
  {
  }

  lemma AppendTranscriptStep(b: Backend, s: SessionState, id: SessionId, messages: seq<Message>)
    requires Canon(b, id, s) == s
    ensures DurableApply(b, s, AppendTranscript(id, messages)) == (s.(transcript := s.transcript + messages), Done)
  {
  }

  /** One operation on related states: the durable backend follows the in-memory one exactly when the times can be stored. */
  lemma StepRefinesIff(b: Backend, s: SessionState, op: Op)
    ensures var (s', r) := Apply(s, op);
      DurableApply(b, Canon(b, op.session, s), op) == (Canon(b, op.session, s'), CanonReply(b, op.session, r))
      <==> Storable(s, op)
  {
    var (s', r) := Apply(s, op);
    assert r != Failed(InvalidTime);
    assert CanonReply(b, op.session, r) != Failed(InvalidTime);
  }

  /** Nothing is altered exactly when the manifest carries its own key and, on SQLite, no empty plan. */
  lemma CanonChangesNothingIff(b: Backend, id: SessionId, s: SessionState)
    ensures Canon(b, id, s) == s <==>
      (s.manifest.Some? ==> s.manifest.value.sessionId == id && !(b == Sqlite && s.manifest.value.initPlan == Some([])))
  {
  }
}
