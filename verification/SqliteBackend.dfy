/** The SQLite backend of fmemory/src/backends/sqlite.rs: every method as the statements it issues on the seven tables. */
module SqliteBackend {
  import opened Wrappers
  import opened ProviderModel
  import opened MemoryModel
  import opened MemoryCodec
  import opened Tables
  import opened Backends

  datatype SessionRow = SessionRow(
    schemaVersion: int,
    harnessVersion: string,
    activeBranch: string,
    currentObjective: string,
    lastKnownGoodCommit: Option<string>)

  datatype PlanRow = PlanRow(kind: string, program: Option<string>, args: Option<JsonText>, shell: Option<string>, script: Option<string>)

  datatype FeatureRow = FeatureRow(featureId: string, category: string, description: string, steps: JsonText, passes: int)

  function EncodeStep(step: InitStep): PlanRow {
    match step
    case Command(program, args) => PlanRow("command", Some(program), Some(JsonText(args)), None, None)
    case Shell(shell, script) => PlanRow("shell", None, None, Some(ShellText(shell)), Some(script))
  }

  function DecodeStep(r: PlanRow): Result<InitStep, MemoryError> {
    if r.kind == "command" then
      if r.program == None || r.args == None then Err(StorageError)
      else Ok(Command(r.program.value, r.args.value.denotes))
    else if r.kind == "shell" then
      if r.shell == None then Err(StorageError)
      else
        match ShellOf(r.shell.value)
        case Err(e) => Err(e)
        case Ok(shell) => if r.script == None then Err(StorageError) else Ok(Shell(shell, r.script.value))
    else Err(StorageError)
  }

  lemma StepRoundTrip(step: InitStep)
    ensures DecodeStep(EncodeStep(step)) == Ok(step)
  {
  }

  function EncodeFeature(f: FeatureRecord): FeatureRow {
    FeatureRow(f.id, f.category, f.description, JsonText(f.steps), if f.passes then 1 else 0)
  }

  function DecodeFeature(r: FeatureRow): Result<FeatureRecord, MemoryError> {
    Ok(FeatureRecord(r.featureId, r.category, r.description, r.steps.denotes, r.passes != 0))
  }

  function SetPasses(passes: bool): FeatureRow -> FeatureRow {
    (r: FeatureRow) => r.(passes := if passes then 1 else 0)
  }

  // ---- decoded views of one table ----

  ghost predicate Good<R, T>(decode: R -> Result<T, MemoryError>, t: Table<R>) {
    Sound(t) && forall i :: 0 <= i < |t.rows| ==> decode(t.rows[i].value).Ok?
  }

  ghost predicate AtZero<R>(t: Table<R>) {
    forall i :: 0 <= i < |t.rows| ==> t.rows[i].position == 0
  }

  /** The decoded rows of a session, in query order. */
  function Read<R, T>(decode: R -> Result<T, MemoryError>, t: Table<R>, s: SessionId): seq<T> {
    var r := DecodeAll(decode, Select(t, s));
    if r.Ok? then r.value else []
  }

  lemma ReadIsDecoded<R, T>(decode: R -> Result<T, MemoryError>, t: Table<R>, s: SessionId)
    requires Good(decode, t)
    ensures DecodeAll(decode, Select(t, s)) == Ok(Read(decode, t, s))
    ensures |Read(decode, t, s)| == |Select(t, s)| == |Of(t.rows, s)|
    ensures forall i :: 0 <= i < |Read(decode, t, s)| ==> decode(Of(t.rows, s)[i].value) == Ok(Read(decode, t, s)[i])
  {
    SelectIsOf(t, s);
    forall i | 0 <= i < |Of(t.rows, s)| ensures decode(Select(t, s)[i]).Ok? {
      var k := OfFrom(t.rows, s, i);
    }
  }

  lemma ReadAfterInsert<R, T>(decode: R -> Result<T, MemoryError>, t: Table<R>, session: SessionId, position: nat, row: R, value: T)
    requires Good(decode, t) && decode(row) == Ok(value)
    requires forall i :: 0 <= i < |Of(t.rows, session)| ==> Of(t.rows, session)[i].position <= position
    ensures var t' := Insert(t, session, position, row);
      && Good(decode, t')
      && (forall s :: Read(decode, t', s) == Read(decode, t, s) + if s == session then [value] else [])
      && Of(t'.rows, session) == Of(t.rows, session) + [Row(t.next, session, position, row)]
  {
    var t' := Insert(t, session, position, row);
    InsertAppends(t, session, position, row);
    forall s ensures Read(decode, t', s) == Read(decode, t, s) + if s == session then [value] else [] {
      ReadIsDecoded(decode, t, s);
      ReadIsDecoded(decode, t', s);
      assert Select(t', s) == Select(t, s) + if s == session then [row] else [];
    }
  }

  lemma ReadAfterDelete<R, T>(decode: R -> Result<T, MemoryError>, t: Table<R>, session: SessionId)
    requires Good(decode, t)
    ensures var t' := DeleteWhere(t, session);
      && Good(decode, t')
      && (forall s :: Read(decode, t', s) == if s == session then [] else Read(decode, t, s))
      && Of(t'.rows, session) == []
  {
    var t' := DeleteWhere(t, session);
    DeleteEmpties(t, session);
    forall i | 0 <= i < |t'.rows| ensures decode(t'.rows[i].value).Ok? {
      var k := WithoutFrom(t.rows, session, i);
    }
    forall s ensures Read(decode, t', s) == if s == session then [] else Read(decode, t, s) {
      assert Select(t', s) == if s == session then [] else Select(t, s);
    }
  }

  lemma ReadAfterUpdate<R, T>(decode: R -> Result<T, MemoryError>, t: Table<R>, session: SessionId, i: nat, change: R -> R, value: T)
    requires Good(decode, t) && i < |Of(t.rows, session)|
    requires forall r :: decode(r).Ok? ==> decode(change(r)).Ok?
    requires decode(change(Of(t.rows, session)[i].value)) == Ok(value)
    ensures var t' := Update(t, Of(t.rows, session)[i].rowId, change);
      && Good(decode, t')
      && |Read(decode, t, session)| == |Of(t.rows, session)|
      && Read(decode, t', session) == Read(decode, t, session)[i := value]
      && (forall s :: s != session ==> Read(decode, t', s) == Read(decode, t, s))
  {
    var t' := Update(t, Of(t.rows, session)[i].rowId, change);
    UpdateChangesOne(t, session, i, change);
    SelectIsOf(t, session);
    ReadIsDecoded(decode, t, session);
    ReadIsDecoded(decode, t', session);
    assert Read(decode, t', session) == Read(decode, t, session)[i := value];
  }

  function MetadataOf(metadata: map<(SessionId, string), string>, id: SessionId): map<string, string> {
    map k: (SessionId, string) | k in metadata && k.0 == id :: k.1 := metadata[k]
  }

  lemma DeletedMetadata(metadata: map<(SessionId, string), string>, id: SessionId)
    ensures var m := map k | k in metadata && k.0 != id :: metadata[k];
      MetadataOf(m, id) == map[] && forall other :: other != id ==> MetadataOf(m, other) == MetadataOf(metadata, other)
  {
    var m := map k | k in metadata && k.0 != id :: metadata[k];
    forall other | other != id ensures MetadataOf(m, other) == MetadataOf(metadata, other) {
      forall k ensures k in MetadataOf(m, other) <==> k in MetadataOf(metadata, other) {
        assert k in MetadataOf(m, other) <==> (other, k) in m;
        assert k in MetadataOf(metadata, other) <==> (other, k) in metadata;
      }
    }
  }

  lemma MetadataAt(metadata: map<(SessionId, string), string>, s: SessionId, k: string)
    ensures k in MetadataOf(metadata, s) <==> (s, k) in metadata
    ensures (s, k) in metadata ==> MetadataOf(metadata, s)[k] == metadata[(s, k)]
  {
  }

  lemma InsertedMetadata(metadata: map<(SessionId, string), string>, id: SessionId, key: string, value: string)
    ensures var m := metadata[(id, key) := value];
      && MetadataOf(m, id) == MetadataOf(metadata, id)[key := value]
      && forall other :: other != id ==> MetadataOf(m, other) == MetadataOf(metadata, other)
  {
    hide MetadataOf;
    var m := metadata[(id, key) := value];
    forall s: SessionId, k: string
      ensures k in MetadataOf(m, s) <==> (k in MetadataOf(metadata, s) || (s == id && k == key))
      ensures k in MetadataOf(m, s) ==> MetadataOf(m, s)[k] == if s == id && k == key then value else MetadataOf(metadata, s)[k]
    {
      MetadataAt(m, s, k);
      MetadataAt(metadata, s, k);
    }
    forall other | other != id ensures MetadataOf(m, other) == MetadataOf(metadata, other) {
      assert MetadataOf(m, other).Keys == MetadataOf(metadata, other).Keys;
    }
  }

  /** A session's manifest as put together from its three tables. */
  function StoredManifest(sessions: map<SessionId, SessionRow>, metadata: map<(SessionId, string), string>, planSteps: Table<PlanRow>, id: SessionId): Option<SessionManifest> {
    if id !in sessions then None
    else
      var row, steps := sessions[id], Read(DecodeStep, planSteps, id);
      Some(SessionManifest(id, row.schemaVersion % 0x1_0000_0000, row.harnessVersion, row.activeBranch, row.currentObjective, row.lastKnownGoodCommit,
                           if steps == [] then None else Some(steps), MetadataOf(metadata, id)))
  }

  lemma MarkedRow(t: Table<FeatureRow>, id: SessionId, i: nat, passes: bool)
    requires Good(DecodeFeature, t) && i < |Of(t.rows, id)| && i < |Read(DecodeFeature, t, id)|
    ensures var t', list := Update(t, Of(t.rows, id)[i].rowId, SetPasses(passes)), Read(DecodeFeature, t, id);
      && Good(DecodeFeature, t')
      && Read(DecodeFeature, t', id) == list[i := list[i].(passes := passes)]
      && (forall s :: s != id ==> Read(DecodeFeature, t', s) == Read(DecodeFeature, t, s))
  {
    ReadIsDecoded(DecodeFeature, t, id);
    hide Good, Read, Of, Update;
    ReadAfterUpdate(DecodeFeature, t, id, i, SetPasses(passes), Read(DecodeFeature, t, id)[i].(passes := passes));
  }

  lemma DecodedId(row: FeatureRow, f: FeatureRecord)
    requires DecodeFeature(row) == Ok(f)
    ensures f.id == row.featureId
  {
  }

  /** The first of some rows with a feature id. */
  method FirstRow(rows: seq<Row<FeatureRow>>, featureId: string, ghost list: seq<FeatureRecord>) returns (at: Option<nat>)
    requires |rows| == |list| && forall i :: 0 <= i < |rows| ==> DecodeFeature(rows[i].value) == Ok(list[i])
    ensures at == FindFeature(list, featureId)
  {
    hide DecodeFeature, FindFeature;
    for i := 0 to |rows|
      invariant forall j :: 0 <= j < i ==> list[j].id != featureId
    {
      DecodedId(rows[i].value, list[i]);
      if rows[i].value.featureId == featureId {
        return Some(i);
      }
    }
    at := None;
  }

  class SqliteMemoryBackend {
    var sessions: map<SessionId, SessionRow>
    var metadata: map<(SessionId, string), string>
    var planSteps: Table<PlanRow>
    var features: Table<FeatureRow>
    var progress: Table<ProgressRow>
    var checkpoints: Table<CheckpointRow>
    var transcript: Table<MessageRow>

    ghost predicate Valid()
      reads this
    {
      && Good(DecodeStep, planSteps) && Good(DecodeFeature, features)
      && Good(DecodeProgress, progress) && AtZero(progress)
      && Good(DecodeCheckpoint, checkpoints) && AtZero(checkpoints)
      && Good(DecodeMessage, transcript) && AtZero(transcript)
      && (forall id :: id in sessions ==> 0 <= sessions[id].schemaVersion < 0x1_0000_0000)
    }

    function ManifestView(id: SessionId): Option<SessionManifest>
      reads this
    {
      StoredManifest(sessions, metadata, planSteps, id)
    }

    /** The session's state as the queries return it. */
    function View(id: SessionId): SessionState
      reads this
    {
      SessionState(ManifestView(id), Read(DecodeFeature, features, id), Read(DecodeProgress, progress, id),
                   Read(DecodeCheckpoint, checkpoints, id), Read(DecodeMessage, transcript, id))
    }

    constructor ()
      ensures Valid() && forall id :: View(id) == NEW_SESSION
    {
      sessions, metadata := map[], map[];
      planSteps, features, progress, checkpoints, transcript := Table([], 0), Table([], 0), Table([], 0), Table([], 0), Table([], 0);
    }

    // ---- manifest and feature rows ----

    /** The upsert into `sessions`. */
    method UpsertSession(id: SessionId, manifest: SessionManifest)
      requires Valid()
      modifies this`sessions
      ensures Valid()
      ensures sessions == old(sessions)[id := SessionRow(manifest.schemaVersion, manifest.harnessVersion, manifest.activeBranch, manifest.currentObjective, manifest.lastKnownGoodCommit)]
    {
      sessions := sessions[id := SessionRow(manifest.schemaVersion, manifest.harnessVersion, manifest.activeBranch, manifest.currentObjective, manifest.lastKnownGoodCommit)];
    }

    /** Replaces the metadata rows of the session. */
    method RewriteMetadata(id: SessionId, entries: map<string, string>)
      requires Valid()
      modifies this`metadata
      ensures Valid() && MetadataOf(metadata, id) == entries
      ensures forall other :: other != id ==> MetadataOf(metadata, other) == MetadataOf(old(metadata), other)
    {
      hide Good, AtZero, MetadataOf;
      DeletedMetadata(metadata, id);
      metadata := map k | k in metadata && k.0 != id :: metadata[k];
      var keys := entries.Keys;
      while keys != {}
        invariant Valid() && keys <= entries.Keys
        invariant MetadataOf(metadata, id) == map k | k in entries && k !in keys :: entries[k]
        invariant forall other :: other != id ==> MetadataOf(metadata, other) == MetadataOf(old(metadata), other)
        decreases keys
      {
        var key :| key in keys;
        InsertedMetadata(metadata, id, key, entries[key]);
        metadata := metadata[(id, key) := entries[key]];
        keys := keys - {key};
      }
    }

    /** Replaces the init plan rows of the session. */
    method RewritePlan(id: SessionId, plan: Option<seq<InitStep>>)
      requires Valid()
      modifies this`planSteps
      ensures Valid() && Read(DecodeStep, planSteps, id) == plan.GetOr([])
      ensures forall other :: other != id ==> Read(DecodeStep, planSteps, other) == old(Read(DecodeStep, planSteps, other))
    {
      hide Good, AtZero, Read, DecodeStep, EncodeStep, Of;
      ReadAfterDelete(DecodeStep, planSteps, id);
      planSteps := DeleteWhere(planSteps, id);
      if plan.Some? {
        var steps := plan.value;
        for index := 0 to |steps|
          invariant Valid() && Read(DecodeStep, planSteps, id) == steps[..index]
          invariant forall i :: 0 <= i < |Of(planSteps.rows, id)| ==> Of(planSteps.rows, id)[i].position <= index
          invariant forall other :: other != id ==> Read(DecodeStep, planSteps, other) == old(Read(DecodeStep, planSteps, other))
        {
          StepRoundTrip(steps[index]);
          ReadAfterInsert(DecodeStep, planSteps, id, index, EncodeStep(steps[index]), steps[index]);
          planSteps := Insert(planSteps, id, index, EncodeStep(steps[index]));
        }
        assert steps[..|steps|] == steps;
      }
    }

    /** `save_manifest_rows`. */
    method SaveManifestRows(id: SessionId, manifest: SessionManifest)
      requires Valid()
      modifies this`sessions, this`metadata, this`planSteps
      ensures Valid() && ManifestView(id) == Some(CanonManifest(Sqlite, id, manifest))
      ensures forall other :: other != id ==> ManifestView(other) == old(ManifestView(other))
    {
      hide Good, AtZero, Read, MetadataOf;
      UpsertSession(id, manifest);
      RewriteMetadata(id, manifest.metadata);
      RewritePlan(id, manifest.initPlan);
    }

    /** `replace_features`. */
    method ReplaceFeatures(id: SessionId, list: seq<FeatureRecord>)
      requires Valid()
      modifies this`features
      ensures Valid() && Read(DecodeFeature, features, id) == list
      ensures forall other :: other != id ==> Read(DecodeFeature, features, other) == old(Read(DecodeFeature, features, other))
    {
      hide Good, AtZero, Read, Of;
      ReadAfterDelete(DecodeFeature, features, id);
      features := DeleteWhere(features, id);
      for position := 0 to |list|
        invariant Valid() && Read(DecodeFeature, features, id) == list[..position]
        invariant forall i :: 0 <= i < |Of(features.rows, id)| ==> Of(features.rows, id)[i].position <= position
        invariant forall other :: other != id ==> Read(DecodeFeature, features, other) == old(Read(DecodeFeature, features, other))
      {
        ReadAfterInsert(DecodeFeature, features, id, position, EncodeFeature(list[position]), list[position]);
        features := Insert(features, id, position, EncodeFeature(list[position]));
      }
      assert list[..|list|] == list;
    }

    // ---- appends ----

    lemma AllAtZero<R>(t: Table<R>, id: SessionId)
      requires AtZero(t)
      ensures forall i :: 0 <= i < |Of(t.rows, id)| ==> Of(t.rows, id)[i].position <= 0
    {
      forall i | 0 <= i < |Of(t.rows, id)| ensures Of(t.rows, id)[i].position <= 0 {
        var k := OfFrom(t.rows, id, i);
      }
    }

    /** The insertion into `progress_entries`; a time before the epoch is refused first. */
    method InsertProgress(id: SessionId, entry: ProgressEntry) returns (e: Option<MemoryError>)
      requires Valid()
      modifies this`progress
      ensures Valid() && (e == if PostEpoch(entry) then None else Some(InvalidTime))
      ensures Read(DecodeProgress, progress, id) == if PostEpoch(entry) then old(Read(DecodeProgress, progress, id)) + [entry] else old(Read(DecodeProgress, progress, id))
      ensures forall other :: other != id ==> Read(DecodeProgress, progress, other) == old(Read(DecodeProgress, progress, other))
    {
      ProgressRoundTrip(entry);
      var row := EncodeProgress(entry);
      if row.Err? {
        return Some(row.error);
      }
      AllAtZero(progress, id);
      ReadAfterInsert(DecodeProgress, progress, id, 0, row.value, entry);
      progress := Insert(progress, id, 0, row.value);
      e := None;
    }

    /** The insertion into `run_checkpoints`. */
    method InsertCheckpoint(id: SessionId, checkpoint: RunCheckpoint) returns (e: Option<MemoryError>)
      requires Valid()
      modifies this`checkpoints
      ensures Valid() && (e == if CheckpointPostEpoch(checkpoint) then None else Some(InvalidTime))
      ensures Read(DecodeCheckpoint, checkpoints, id) == if CheckpointPostEpoch(checkpoint) then old(Read(DecodeCheckpoint, checkpoints, id)) + [checkpoint] else old(Read(DecodeCheckpoint, checkpoints, id))
      ensures forall other :: other != id ==> Read(DecodeCheckpoint, checkpoints, other) == old(Read(DecodeCheckpoint, checkpoints, other))
    {
      CheckpointRoundTrip(checkpoint);
      var row := EncodeCheckpoint(checkpoint);
      if row.Err? {
        return Some(row.error);
      }
      AllAtZero(checkpoints, id);
      ReadAfterInsert(DecodeCheckpoint, checkpoints, id, 0, row.value, checkpoint);
      checkpoints := Insert(checkpoints, id, 0, row.value);
      e := None;
    }

    // ---- the operations of the trait ----

    method IsInitialized(id: SessionId) returns (r: bool)
      ensures r == View(id).manifest.Some?
    {
      r := id in sessions;
    }

    /** `initialize_session_if_missing`: a sequence of statements without a transaction. */
    method InitializeSessionIfMissing(id: SessionId, manifest: SessionManifest, list: seq<FeatureRecord>, entry: Option<ProgressEntry>, checkpoint: Option<RunCheckpoint>)
      returns (r: Result<bool, MemoryError>)
      requires Valid()
      modifies this
      ensures Valid()
      ensures (View(id), if r.Ok? then Flag(r.value) else Failed(r.error))
           == DurableApply(Sqlite, old(View(id)), Initialize(id, manifest, list, entry, checkpoint))
      ensures forall other :: other != id ==> View(other) == old(View(other))
    {
      CanonicalView(id);
      InitializeStep(View(id), id, manifest, list, entry, checkpoint);
      hide Valid, Read, Canon, CanonManifest, DurableApply;
      if id in sessions {
        return Ok(false); // INSERT OR IGNORE inserted nothing
      }
      SaveManifestRows(id, manifest);
      ReplaceFeatures(id, list);
      if entry.Some? {
        var refused := InsertProgress(id, entry.value);
        if refused.Some? {
          return Err(refused.value);
        }
      }
      if checkpoint.Some? {
        var refused := InsertCheckpoint(id, checkpoint.value);
        if refused.Some? {
          return Err(refused.value);
        }
      }
      r := Ok(true);
    }

    /** Under the invariant every query decodes. */
    lemma QueriesDecode(id: SessionId)
      ensures Valid() ==>
        && DecodeAll(DecodeStep, Select(planSteps, id)).Ok? && DecodeAll(DecodeFeature, Select(features, id)).Ok?
        && DecodeAll(DecodeProgress, Select(progress, id)).Ok? && DecodeAll(DecodeCheckpoint, Select(checkpoints, id)).Ok?
        && DecodeAll(DecodeMessage, Select(transcript, id)).Ok?
    {
      hide Read;
      if Valid() {
        ReadIsDecoded(DecodeStep, planSteps, id);
        ReadIsDecoded(DecodeFeature, features, id);
        ReadIsDecoded(DecodeProgress, progress, id);
        ReadIsDecoded(DecodeCheckpoint, checkpoints, id);
        ReadIsDecoded(DecodeMessage, transcript, id);
      }
    }

    /** `load_bootstrap_state`: on any tables an answer is the view, and on sound tables there is one. */
    method LoadBootstrapState(id: SessionId) returns (r: Result<BootstrapState, MemoryError>)
      ensures r.Ok? ==> r.value == Bootstrap(View(id))
      ensures Valid() ==> r.Ok?
    {
      hide Valid, DecodeAll, Select, DecodeStep, DecodeFeature, DecodeProgress, DecodeCheckpoint;
      QueriesDecode(id);
      var manifest: Option<SessionManifest> := None;
      if id in sessions {
        var row := sessions[id];
        var steps := ReadRows(DecodeStep, Select(planSteps, id));
        if steps.Err? {
          return Err(steps.error);
        }
        var found := SessionManifest(id, row.schemaVersion % 0x1_0000_0000, row.harnessVersion, row.activeBranch, row.currentObjective,
                                     row.lastKnownGoodCommit, None, MetadataOf(metadata, id));
        if steps.value != [] {
          found := found.(initPlan := Some(steps.value));
        }
        manifest := Some(found);
      }
      var list := ReadRows(DecodeFeature, Select(features, id));
      if list.Err? {
        return Err(list.error);
      }
      var entries := ReadRows(DecodeProgress, Select(progress, id));
      if entries.Err? {
        return Err(entries.error);
      }
      var runs := ReadRows(DecodeCheckpoint, Select(checkpoints, id));
      if runs.Err? {
        return Err(runs.error);
      }
      r := Ok(BootstrapState(manifest, list.value, entries.value, runs.value));
    }

    method SaveManifest(id: SessionId, manifest: SessionManifest)
      requires Valid()
      modifies this
      ensures Valid()
      ensures (View(id), Done) == DurableApply(Sqlite, old(View(id)), Op.SaveManifest(id, manifest))
      ensures forall other :: other != id ==> View(other) == old(View(other))
    {
      hide Valid, Read, StoredManifest, CanonManifest;
      SaveManifestRows(id, manifest);
    }

    method AppendProgressEntry(id: SessionId, entry: ProgressEntry) returns (e: Option<MemoryError>)
      requires Valid()
      modifies this
      ensures Valid()
      ensures (View(id), if e.Some? then Failed(e.value) else Done) == DurableApply(Sqlite, old(View(id)), AppendProgress(id, entry))
      ensures forall other :: other != id ==> View(other) == old(View(other))
    {
      hide Valid, Read, Canon, DurableApply, StoredManifest;
      CanonicalView(id);
      AppendProgressStep(Sqlite, View(id), id, entry);
      e := InsertProgress(id, entry);
    }

    method ReplaceFeatureList(id: SessionId, list: seq<FeatureRecord>)
      requires Valid()
      modifies this
      ensures Valid()
      ensures (View(id), Done) == DurableApply(Sqlite, old(View(id)), Op.ReplaceFeatures(id, list))
      ensures forall other :: other != id ==> View(other) == old(View(other))
    {
      hide Valid, Read, Canon, DurableApply, StoredManifest;
      CanonicalView(id);
      FeaturesStep(Sqlite, View(id), id, list);
      ReplaceFeatures(id, list);
    }

    /** `update_feature_pass`: select the first matching row id in query order, then update that row. */
    method UpdateFeaturePass(id: SessionId, featureId: string, passes: bool) returns (e: Option<MemoryError>)
      requires Valid()
      modifies this
      ensures Valid()
      ensures (View(id), if e.Some? then Failed(e.value) else Done) == DurableApply(Sqlite, old(View(id)), Op.UpdateFeaturePass(id, featureId, passes))
      ensures forall other :: other != id ==> View(other) == old(View(other))
    {
      hide Canon, DurableApply, DecodeFeature, FindFeature, SetPasses, StoredManifest;
      CanonicalView(id);
      UpdateStep(Sqlite, View(id), id, featureId, passes);
      ghost var list := Read(DecodeFeature, features, id);
      var row := FirstMatch(id, featureId);
      hide Good, AtZero, Read, Canon, DurableApply, DecodeFeature, FindFeature, Of, Update, SetPasses, StoredManifest;
      if row == None {
        return Some(NotFound);
      }
      MarkedRow(features, id, FindFeature(list, featureId).value, passes);
      features := Update(features, row.value, SetPasses(passes));
      e := None;
    }

    lemma FeaturesInOrder(id: SessionId)
      requires Valid()
      ensures OrderBy(Of(features.rows, id)) == Of(features.rows, id)
    {
      OrderByIsIdentity(Of(features.rows, id));
    }

    /** `SELECT id ... ORDER BY position ASC, id ASC LIMIT 1`. */
    method FirstMatch(id: SessionId, featureId: string) returns (row: Option<nat>)
      requires Valid()
      ensures var list := Read(DecodeFeature, features, id);
        && |list| == |Of(features.rows, id)|
        && (forall i :: 0 <= i < |list| ==> DecodeFeature(Of(features.rows, id)[i].value) == Ok(list[i]))
        && (row.Some? <==> FindFeature(list, featureId).Some?)
        && (row.Some? ==> row.value == Of(features.rows, id)[FindFeature(list, featureId).value].rowId)
    {
      hide Good, Read, OrderBy, Of, DecodeFeature, FindFeature, AtZero;
      ReadIsDecoded(DecodeFeature, features, id);
      FeaturesInOrder(id);
      var rows := OrderBy(Of(features.rows, id));
      var at := FirstRow(rows, featureId, Read(DecodeFeature, features, id));
      row := if at.Some? then Some(rows[at.value].rowId) else None;
    }

    method RecordRunCheckpoint(id: SessionId, checkpoint: RunCheckpoint) returns (e: Option<MemoryError>)
      requires Valid()
      modifies this
      ensures Valid()
      ensures (View(id), if e.Some? then Failed(e.value) else Done) == DurableApply(Sqlite, old(View(id)), RecordCheckpoint(id, checkpoint))
      ensures forall other :: other != id ==> View(other) == old(View(other))
    {
      hide Valid, Read, Canon, DurableApply, StoredManifest;
      CanonicalView(id);
      RecordCheckpointStep(Sqlite, View(id), id, checkpoint);
      e := InsertCheckpoint(id, checkpoint);
    }

    method LoadTranscriptMessages(id: SessionId) returns (r: Result<seq<Message>, MemoryError>)
      ensures r.Ok? ==> r.value == View(id).transcript
      ensures Valid() ==> r.Ok?
    {
      hide Valid, DecodeAll, Select, DecodeMessage;
      QueriesDecode(id);
      r := ReadRows(DecodeMessage, Select(transcript, id));
    }

    method AppendTranscriptMessages(id: SessionId, messages: seq<Message>)
      requires Valid()
      modifies this
      ensures Valid()
      ensures (View(id), Done) == DurableApply(Sqlite, old(View(id)), AppendTranscript(id, messages))
      ensures forall other :: other != id ==> View(other) == old(View(other))
    {
      hide Valid, Read, Canon, DurableApply, StoredManifest;
      CanonicalView(id);
      AppendTranscriptStep(Sqlite, View(id), id, messages);
      InsertMessages(id, messages);
    }

    method InsertMessages(id: SessionId, messages: seq<Message>)
      requires Valid()
      modifies this`transcript
      ensures Valid() && Read(DecodeMessage, transcript, id) == old(Read(DecodeMessage, transcript, id)) + messages
      ensures forall other :: other != id ==> Read(DecodeMessage, transcript, other) == old(Read(DecodeMessage, transcript, other))
    {
      hide Valid, Read;
      ghost var before := Read(DecodeMessage, transcript, id);
      assert before + messages[..0] == before;
      for i := 0 to |messages|
        invariant Valid()
        invariant Read(DecodeMessage, transcript, id) == before + messages[..i]
        invariant forall other :: other != id ==> Read(DecodeMessage, transcript, other) == old(Read(DecodeMessage, transcript, other))
      {
        InsertMessage(id, messages[i]);
        assert before + messages[..i] + [messages[i]] == before + messages[..i + 1];
      }
      assert messages[..|messages|] == messages;
    }

    /** The insertion into `transcript_messages`. */
    method InsertMessage(id: SessionId, message: Message)
      requires Valid()
      modifies this`transcript
      ensures Valid() && Read(DecodeMessage, transcript, id) == old(Read(DecodeMessage, transcript, id)) + [message]
      ensures forall other :: other != id ==> Read(DecodeMessage, transcript, other) == old(Read(DecodeMessage, transcript, other))
    {
      hide Good, Read, DecodeMessage, EncodeMessage, Of;
      MessageRoundTrip(message);
      AllAtZero(transcript, id);
      ReadAfterInsert(DecodeMessage, transcript, id, 0, EncodeMessage(message), message);
      transcript := Insert(transcript, id, 0, EncodeMessage(message));
    }

    /** What the tables say about a session is already canonical. */
    lemma CanonicalView(id: SessionId)
      ensures Canon(Sqlite, id, View(id)) == View(id)
    {
    }

    /** Any operation of the trait. */
    method Perform(op: Op) returns (reply: Reply)
      requires Valid()
      modifies this
      ensures Valid()
      ensures (View(op.session), reply) == DurableApply(Sqlite, old(View(op.session)), op)
      ensures forall other :: other != op.session ==> View(other) == old(View(other))
    {
      hide View, Valid, DurableApply;
      var id := op.session;
      ReadsChangeNothing(op);
      match op {
        case IsInitialized(_) =>
          var flag := IsInitialized(id);
          reply := Flag(flag);
        case Initialize(_, manifest, list, entry, checkpoint) =>
          var r := InitializeSessionIfMissing(id, manifest, list, entry, checkpoint);
          reply := if r.Ok? then Flag(r.value) else Failed(r.error);
        case LoadBootstrap(_) =>
          var r := LoadBootstrapState(id);
          reply := Loaded(r.value);
        case SaveManifest(_, manifest) =>
          SaveManifest(id, manifest);
          reply := Done;
        case AppendProgress(_, entry) =>
          var e := AppendProgressEntry(id, entry);
          reply := if e.Some? then Failed(e.value) else Done;
        case ReplaceFeatures(_, list) =>
          ReplaceFeatureList(id, list);
          reply := Done;
        case UpdateFeaturePass(_, featureId, passes) =>
          var e := UpdateFeaturePass(id, featureId, passes);
          reply := if e.Some? then Failed(e.value) else Done;
        case RecordCheckpoint(_, checkpoint) =>
          var e := RecordRunCheckpoint(id, checkpoint);
          reply := if e.Some? then Failed(e.value) else Done;
        case LoadTranscript(_) =>
          var r := LoadTranscriptMessages(id);
          reply := Messages(r.value);
        case AppendTranscript(_, messages) =>
          AppendTranscriptMessages(id, messages);
          reply := Done;
      }
    }

    lemma ReadsChangeNothing(op: Op)
      ensures op.IsInitialized? ==> DurableApply(Sqlite, View(op.session), op) == (View(op.session), Flag(View(op.session).manifest.Some?))
      ensures op.LoadBootstrap? ==> DurableApply(Sqlite, View(op.session), op) == (View(op.session), Loaded(Bootstrap(View(op.session))))
      ensures op.LoadTranscript? ==> DurableApply(Sqlite, View(op.session), op) == (View(op.session), Messages(View(op.session).transcript))
    {
    }
  }

  /** Any sequence of operations, over any interleaving of sessions, is answered as by the in-memory backend. */
  method Replay(db: SqliteMemoryBackend, memory: InMemoryMemoryBackend, ops: seq<Op>) returns (durable: seq<Reply>, reference: seq<Reply>)
    requires db.Valid() && forall id :: db.View(id) == Canon(Sqlite, id, memory.View(id))
    requires forall i :: 0 <= i < |ops| ==> TimesOk(ops[i])
    modifies db, memory
    ensures db.Valid() && forall id :: db.View(id) == Canon(Sqlite, id, memory.View(id))
    ensures |durable| == |reference| == |ops|
    ensures forall i :: 0 <= i < |ops| ==> durable[i] == CanonReply(Sqlite, ops[i].session, reference[i])
  {
    hide DurableApply, Apply, Canon, CanonReply, SqliteMemoryBackend.View, SqliteMemoryBackend.Valid, InMemoryMemoryBackend.View, TimesOk;
    durable, reference := [], [];
    for i := 0 to |ops|
      invariant db.Valid() && forall id :: db.View(id) == Canon(Sqlite, id, memory.View(id))
      invariant |durable| == |reference| == i
      invariant forall j :: 0 <= j < i ==> durable[j] == CanonReply(Sqlite, ops[j].session, reference[j])
    {
      StepRefinesIff(Sqlite, memory.View(ops[i].session), ops[i]);
      var a := db.Perform(ops[i]);
      var b := memory.Perform(ops[i]);
      durable, reference := durable + [a], reference + [b];
    }
  }
}
