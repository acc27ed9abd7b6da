/**
 The durable records of fmemory/src/types.rs and, per session, what each operation of `MemoryBackend` does.
 The in-memory backend implements this directly; the other backends refine it.
 */
module MemoryModel {
  import opened Wrappers
  import opened ProviderModel

  /** Nanoseconds since the Unix epoch, within the range of a 64-bit count of seconds. */
  type Time = t: int | -0x8000_0000_0000_0000 * 1_000_000_000 <= t < 0x8000_0000_0000_0000 * 1_000_000_000

  datatype InitShell = Bash | Sh | Pwsh | Cmd

  datatype InitStep = Command(program: string, args: seq<string>) | Shell(shell: InitShell, script: string)

  datatype SessionManifest = SessionManifest(
    sessionId: SessionId,
    schemaVersion: u32,
    harnessVersion: string,
    activeBranch: string,
    currentObjective: string,
    lastKnownGoodCommit: Option<string>,
    initPlan: Option<seq<InitStep>>,
    metadata: map<string, string>)

  datatype FeatureRecord = FeatureRecord(id: string, category: string, description: string, steps: seq<string>, passes: bool)

  datatype ProgressEntry = ProgressEntry(runId: string, summary: string, createdAt: Time)

  datatype RunStatus = InProgress | Succeeded | RunFailed

  datatype RunCheckpoint = RunCheckpoint(runId: string, startedAt: Time, completedAt: Option<Time>, status: RunStatus, note: Option<string>)

  datatype MemoryError = StorageError | NotFound | InvalidTime

  datatype SessionState = SessionState(
    manifest: Option<SessionManifest>,
    features: seq<FeatureRecord>,
    progress: seq<ProgressEntry>,
    checkpoints: seq<RunCheckpoint>,
    transcript: seq<Message>)

  const NEW_SESSION := SessionState(None, [], [], [], [])

  datatype BootstrapState = BootstrapState(
    manifest: Option<SessionManifest>,
    features: seq<FeatureRecord>,
    recentProgress: seq<ProgressEntry>,
    checkpoints: seq<RunCheckpoint>)

  function Bootstrap(s: SessionState): BootstrapState {
    BootstrapState(s.manifest, s.features, s.progress, s.checkpoints)
  }

  /** The first feature with the given id. */
  function FindFeature(features: seq<FeatureRecord>, id: string): (at: Option<nat>)
    ensures match at
      case Some(i) => i < |features| && features[i].id == id && forall j :: 0 <= j < i ==> features[j].id != id
      case None => forall j :: 0 <= j < |features| ==> features[j].id != id
  {
    if features == [] then None
    else if features[0].id == id then Some(0)
    else match FindFeature(features[1..], id)
      case Some(i) => Some(i + 1)
      case None => None
  }

  /** The list with the first feature of that id marked; the list itself when there is none. */
  function MarkFirst(features: seq<FeatureRecord>, id: string, passes: bool): seq<FeatureRecord> {
    match FindFeature(features, id)
    case Some(i) => features[i := features[i].(passes := passes)]
    case None => features
  }

  function AsSeq<T>(o: Option<T>): seq<T> {
    if o.Some? then [o.value] else []
  }

  datatype Op =
    | IsInitialized(session: SessionId)
    | Initialize(session: SessionId, manifest: SessionManifest, features: seq<FeatureRecord>, entry: Option<ProgressEntry>, checkpoint: Option<RunCheckpoint>)
    | LoadBootstrap(session: SessionId)
    | SaveManifest(session: SessionId, manifest: SessionManifest)
    | AppendProgress(session: SessionId, progress: ProgressEntry)
    | ReplaceFeatures(session: SessionId, features: seq<FeatureRecord>)
    | UpdateFeaturePass(session: SessionId, featureId: string, passes: bool)
    | RecordCheckpoint(session: SessionId, run: RunCheckpoint)
    | LoadTranscript(session: SessionId)
    | AppendTranscript(session: SessionId, messages: seq<Message>)

  datatype Reply =
    | Flag(value: bool)
    | Loaded(bootstrap: BootstrapState)
    | Messages(messages: seq<Message>)
    | Done
    | Failed(error: MemoryError)

  /** The effect of an operation on its session, and its answer. */
  function Apply(s: SessionState, op: Op): (SessionState, Reply) {
    match op
    case IsInitialized(_) => (s, Flag(s.manifest.Some?))
    case Initialize(_, manifest, features, entry, checkpoint) =>
      if s.manifest.Some? then (s, Flag(false))
      else (SessionState(Some(manifest), features, s.progress + AsSeq(entry), s.checkpoints + AsSeq(checkpoint), s.transcript), Flag(true))
    case LoadBootstrap(_) => (s, Loaded(Bootstrap(s)))
    case SaveManifest(_, manifest) => (s.(manifest := Some(manifest)), Done)
    case AppendProgress(_, entry) => (s.(progress := s.progress + [entry]), Done)
    case ReplaceFeatures(_, features) => (s.(features := features), Done)
    case UpdateFeaturePass(_, id, passes) =>
      if FindFeature(s.features, id) == None then (s, Failed(NotFound))
      else (s.(features := MarkFirst(s.features, id, passes)), Done)
    case RecordCheckpoint(_, checkpoint) => (s.(checkpoints := s.checkpoints + [checkpoint]), Done)
    case LoadTranscript(_) => (s, Messages(s.transcript))
    case AppendTranscript(_, messages) => (s.(transcript := s.transcript + messages), Done)
  }

  /** `InMemoryMemoryBackend`. */
  class InMemoryMemoryBackend {
    var sessions: map<SessionId, SessionState>

    constructor ()
      ensures forall id :: View(id) == NEW_SESSION
    {
      sessions := map[];
    }

    function View(id: SessionId): SessionState
      reads this
    {
      if id in sessions then sessions[id] else NEW_SESSION
    }

    method IsInitialized(id: SessionId) returns (r: bool)
      ensures r == View(id).manifest.Some?
    {
      r := id in sessions && sessions[id].manifest.Some?;
    }

    /** `initialize_session_if_missing`. */
    method InitializeSessionIfMissing(id: SessionId, manifest: SessionManifest, features: seq<FeatureRecord>, entry: Option<ProgressEntry>, checkpoint: Option<RunCheckpoint>)
      returns (r: bool)
      modifies this
      ensures (View(id), Flag(r)) == Apply(old(View(id)), Initialize(id, manifest, features, entry, checkpoint))
      ensures forall other :: other != id ==> View(other) == old(View(other))
    {
      var state := View(id);
      sessions := sessions[id := state];
      if state.manifest.Some? {
        return false;
      }
      state := state.(manifest := Some(manifest), features := features);
      if entry.Some? {
        state := state.(progress := state.progress + [entry.value]);
      }
      if checkpoint.Some? {
        state := state.(checkpoints := state.checkpoints + [checkpoint.value]);
      }
      sessions := sessions[id := state];
      assert old(View(id)).progress + [] == old(View(id)).progress && old(View(id)).checkpoints + [] == old(View(id)).checkpoints;
      r := true;
    }

    method LoadBootstrapState(id: SessionId) returns (r: BootstrapState)
      ensures r == Bootstrap(View(id))
    {
      if id in sessions {
        var state := sessions[id];
        return BootstrapState(state.manifest, state.features, state.progress, state.checkpoints);
      }
      r := BootstrapState(None, [], [], []);
    }

    method SaveManifest(id: SessionId, manifest: SessionManifest)
      modifies this
      ensures (View(id), Done) == Apply(old(View(id)), Op.SaveManifest(id, manifest))
      ensures forall other :: other != id ==> View(other) == old(View(other))
    {
      sessions := sessions[id := View(id).(manifest := Some(manifest))];
    }

    method AppendProgressEntry(id: SessionId, entry: ProgressEntry)
      modifies this
      ensures (View(id), Done) == Apply(old(View(id)), AppendProgress(id, entry))
      ensures forall other :: other != id ==> View(other) == old(View(other))
    {
      var state := View(id);
      sessions := sessions[id := state.(progress := state.progress + [entry])];
    }

    method ReplaceFeatureList(id: SessionId, features: seq<FeatureRecord>)
      modifies this
      ensures (View(id), Done) == Apply(old(View(id)), ReplaceFeatures(id, features))
      ensures forall other :: other != id ==> View(other) == old(View(other))
    {
      sessions := sessions[id := View(id).(features := features)];
    }

    /** `update_feature_pass`: a loop over the list up to the first record with the id. */
    method UpdateFeaturePass(id: SessionId, featureId: string, passes: bool) returns (e: Option<MemoryError>)
      modifies this
      ensures (View(id), if e.Some? then Failed(e.value) else Done) == Apply(old(View(id)), Op.UpdateFeaturePass(id, featureId, passes))
      ensures forall other :: other != id ==> View(other) == old(View(other))
    {
      var state := View(id);
      sessions := sessions[id := state];
      for i := 0 to |state.features|
        invariant forall j :: 0 <= j < i ==> state.features[j].id != featureId
        invariant View(id) == state
        invariant forall other :: other != id ==> View(other) == old(View(other))
      {
        if state.features[i].id == featureId {
          sessions := sessions[id := state.(features := state.features[i := state.features[i].(passes := passes)])];
          return None;
        }
      }
      e := Some(NotFound);
    }

    method RecordRunCheckpoint(id: SessionId, checkpoint: RunCheckpoint)
      modifies this
      ensures (View(id), Done) == Apply(old(View(id)), RecordCheckpoint(id, checkpoint))
      ensures forall other :: other != id ==> View(other) == old(View(other))
    {
      var state := View(id);
      sessions := sessions[id := state.(checkpoints := state.checkpoints + [checkpoint])];
    }

    method LoadTranscriptMessages(id: SessionId) returns (r: seq<Message>)
      ensures r == View(id).transcript
    {
      r := if id in sessions then sessions[id].transcript else [];
    }

    method AppendTranscriptMessages(id: SessionId, messages: seq<Message>)
      modifies this
      ensures (View(id), Done) == Apply(old(View(id)), AppendTranscript(id, messages))
      ensures forall other :: other != id ==> View(other) == old(View(other))
    {
      var state := View(id);
      sessions := sessions[id := state.(transcript := state.transcript + messages)];
    }

    /** Any operation of the trait. */
    method Perform(op: Op) returns (reply: Reply)
      modifies this
      ensures (View(op.session), reply) == Apply(old(View(op.session)), op)
      ensures forall other :: other != op.session ==> View(other) == old(View(other))
    {
      var id := op.session;
      match op {
        case IsInitialized(_) =>
          var flag := IsInitialized(id);
          reply := Flag(flag);
        case Initialize(_, manifest, features, entry, checkpoint) =>
          var flag := InitializeSessionIfMissing(id, manifest, features, entry, checkpoint);
          reply := Flag(flag);
        case LoadBootstrap(_) =>
          var state := LoadBootstrapState(id);
          reply := Loaded(state);
        case SaveManifest(_, manifest) =>
          SaveManifest(id, manifest);
          reply := Done;
        case AppendProgress(_, entry) =>
          AppendProgressEntry(id, entry);
          reply := Done;
        case ReplaceFeatures(_, features) =>
          ReplaceFeatureList(id, features);
          reply := Done;
        case UpdateFeaturePass(_, featureId, passes) =>
          var e := UpdateFeaturePass(id, featureId, passes);
          reply := if e.Some? then Failed(e.value) else Done;
        case RecordCheckpoint(_, checkpoint) =>
          RecordRunCheckpoint(id, checkpoint);
          reply := Done;
        case LoadTranscript(_) =>
          var messages := LoadTranscriptMessages(id);
          reply := Messages(messages);
        case AppendTranscript(_, messages) =>
          AppendTranscriptMessages(id, messages);
          reply := Done;
      }
    }
  }
}
