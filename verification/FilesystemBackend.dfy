/** The file backend of fmemory/src/backends/filesystem.rs: one file a session, loaded, changed and saved as a whole. */
module FilesystemBackend {
  import opened Wrappers
  import opened ProviderModel
  import opened MemoryModel
  import opened MemoryCodec
  import opened Backends

  // ---- file names ----

  function NibbleToHex(n: nat): (c: char)
    requires n < 16
    ensures c in "0123456789abcdef"
  {
    if n <= 9 then ('0' as int + n) as char else ('a' as int + (n - 10)) as char
  }

  function HexOf(input: seq<byte>): (hex: string)
    ensures |hex| == 2 * |input|
  {
    if input == [] then "" else [NibbleToHex(input[0] / 16), NibbleToHex(input[0] % 16)] + HexOf(input[1..])
  }

  /** `hex_encode`. */
  method HexEncode(input: seq<byte>) returns (output: string)
    ensures output == HexOf(input)
  {
    hide NibbleToHex, HexOf;
    output := "";
    HexStep(input[..0]);
    assert input[..|input|] == input;
    for i := 0 to |input|
      invariant output == HexOf(input[..i])
    {
      HexSnoc(input[..i], input[i]);
      assert input[..i + 1] == input[..i] + [input[i]];
      output := output + [NibbleToHex(input[i] / 16)];
      output := output + [NibbleToHex(input[i] % 16)];
    }
  }

  lemma HexStep(input: seq<byte>)
    ensures input == [] ==> HexOf(input) == ""
  {
  }

  lemma {:induction false} HexSnoc(input: seq<byte>, last: byte)
    ensures HexOf(input + [last]) == HexOf(input) + [NibbleToHex(last / 16)] + [NibbleToHex(last % 16)]
  {
    var high, low := NibbleToHex(last / 16), NibbleToHex(last % 16);
    if input == [] {
      assert (input + [last])[1..] == [];
    } else {
      assert (input + [last])[1..] == input[1..] + [last];
      HexSnoc(input[1..], last);
      var head, rest := [NibbleToHex(input[0] / 16), NibbleToHex(input[0] % 16)], HexOf(input[1..]);
      hide HexOf, NibbleToHex;
      assert head + ((rest + [high]) + [low]) == ((head + rest) + [high]) + [low];
    }
  }

  const DIGITS := "0123456789abcdef"

  lemma NibbleIsDigit(n: nat)
    requires n < 16
    ensures NibbleToHex(n) == DIGITS[n]
  {
  }

  /** Byte `k` is written as its high and then its low digit, in lower case, at twice its place; the file name adds the suffix. */
  lemma {:induction false} HexDigits(input: seq<byte>, k: nat)
    requires k < |input|
    ensures HexOf(input)[2 * k] == DIGITS[input[k] / 16] && HexOf(input)[2 * k + 1] == DIGITS[input[k] % 16]
    ensures SessionPath(input)[2 * k..2 * k + 2] == [DIGITS[input[k] / 16], DIGITS[input[k] % 16]]
    ensures SessionPath(input)[2 * |input|..] == ".json"
  {
    if k > 0 {
      HexDigits(input[1..], k - 1);
      assert HexOf(input) == [NibbleToHex(input[0] / 16), NibbleToHex(input[0] % 16)] + HexOf(input[1..]);
    } else {
      NibbleIsDigit(input[0] / 16);
      NibbleIsDigit(input[0] % 16);
    }
    var hex := HexOf(input);
    assert SessionPath(input)[2 * k..2 * k + 2] == [hex[2 * k], hex[2 * k + 1]];
  }

  lemma NibbleInjective(a: nat, b: nat)
    requires a < 16 && b < 16 && NibbleToHex(a) == NibbleToHex(b)
    ensures a == b
  {
  }

  /** Different byte strings have different hex forms, so no two sessions share a file. */
  lemma {:induction false} HexInjective(a: seq<byte>, b: seq<byte>)
    requires HexOf(a) == HexOf(b)
    ensures a == b
  {
    if a != [] && b != [] {
      var x, y := HexOf(a), HexOf(b);
      assert x[0] == y[0] && x[1] == y[1];
      NibbleInjective(a[0] / 16, b[0] / 16);
      NibbleInjective(a[0] % 16, b[0] % 16);
      assert HexOf(a[1..]) == x[2..] && HexOf(b[1..]) == y[2..];
      HexInjective(a[1..], b[1..]);
      assert a == [a[0]] + a[1..] && b == [b[0]] + b[1..];
    }
  }

  /** The file of a session, relative to the `sessions` directory. */
  function SessionPath(id: SessionId): string {
    HexOf(id) + ".json"
  }

  lemma PathInjective(a: SessionId, b: SessionId)
    requires SessionPath(a) == SessionPath(b)
    ensures a == b
  {
    var x, y := SessionPath(a), SessionPath(b);
    assert x[..|x| - 5] == HexOf(a) && y[..|y| - 5] == HexOf(b);
    HexInjective(a, b);
  }

  // ---- persisted form ----

  datatype PersistedStep = PersistedCommand(program: string, args: seq<string>) | PersistedShell(shell: string, script: string)

  datatype PersistedManifest = PersistedManifest(
    schemaVersion: u32,
    harnessVersion: string,
    activeBranch: string,
    currentObjective: string,
    lastKnownGoodCommit: Option<string>,
    initPlan: Option<seq<PersistedStep>>,
    metadata: map<string, string>)

  /** The content of a session file; a persisted feature has the fields of the record. */
  datatype PersistedState = PersistedState(
    manifest: Option<PersistedManifest>,
    features: seq<FeatureRecord>,
    progress: seq<ProgressRow>,
    checkpoints: seq<CheckpointRow>,
    transcript: seq<MessageRow>)

  const NO_STATE := PersistedState(None, [], [], [], [])

  function FromStep(step: InitStep): PersistedStep {
    match step
    case Command(program, args) => PersistedCommand(program, args)
    case Shell(shell, script) => PersistedShell(ShellText(shell), script)
  }

  function IntoStep(step: PersistedStep): Result<InitStep, MemoryError> {
    match step
    case PersistedCommand(program, args) => Ok(Command(program, args))
    case PersistedShell(shell, script) =>
      match ShellOf(shell)
      case Err(e) => Err(e)
      case Ok(kind) => Ok(Shell(kind, script))
  }

  function FromSteps(steps: seq<InitStep>): (rows: seq<PersistedStep>)
    ensures |rows| == |steps| && forall i :: 0 <= i < |rows| ==> rows[i] == FromStep(steps[i])
  {
    seq(|steps|, i requires 0 <= i < |steps| => FromStep(steps[i]))
  }

  function FromManifest(m: SessionManifest): PersistedManifest {
    PersistedManifest(m.schemaVersion, m.harnessVersion, m.activeBranch, m.currentObjective, m.lastKnownGoodCommit,
                      if m.initPlan.Some? then Some(FromSteps(m.initPlan.value)) else None, m.metadata)
  }

  function IntoManifest(m: PersistedManifest, id: SessionId): Result<SessionManifest, MemoryError> {
    var plan := if m.initPlan.Some? then DecodeAll(IntoStep, m.initPlan.value) else Ok([]);
    match plan
    case Err(e) => Err(e)
    case Ok(steps) =>
      Ok(SessionManifest(id, m.schemaVersion, m.harnessVersion, m.activeBranch, m.currentObjective, m.lastKnownGoodCommit,
                         if m.initPlan.Some? then Some(steps) else None, m.metadata))
  }

  /** A manifest reads back as itself under the key of its file; an empty plan stays an empty plan. */
  lemma ManifestRoundTrip(m: SessionManifest, id: SessionId)
    ensures IntoManifest(FromManifest(m), id) == Ok(CanonManifest(Filesystem, id, m))
  {
    if m.initPlan.Some? {
      var rows := FromSteps(m.initPlan.value);
      forall i | 0 <= i < |rows| ensures IntoStep(rows[i]) == Ok(m.initPlan.value[i]) {
      }
      assert DecodeAll(IntoStep, rows).value == m.initPlan.value;
    }
  }

  /** Decoded rows; nothing if one of them is damaged. */
  function ReadAll<R, T>(decode: R -> Result<T, MemoryError>, rows: seq<R>): seq<T> {
    var r := DecodeAll(decode, rows);
    if r.Ok? then r.value else []
  }

  lemma ReadAllAppend<R, T>(decode: R -> Result<T, MemoryError>, rows: seq<R>, row: R, value: T)
    requires DecodeAll(decode, rows).Ok? && decode(row) == Ok(value)
    ensures DecodeAll(decode, rows + [row]).Ok? && ReadAll(decode, rows + [row]) == ReadAll(decode, rows) + [value]
  {
    assert forall i :: 0 <= i < |rows| ==> (rows + [row])[i] == rows[i];
    assert DecodeAll(decode, rows + [row]).Ok?;
    assert ReadAll(decode, rows + [row]) == ReadAll(decode, rows) + [value];
  }

  function EncodeMessages(messages: seq<Message>): (rows: seq<MessageRow>)
    ensures |rows| == |messages| && forall i :: 0 <= i < |rows| ==> rows[i] == EncodeMessage(messages[i])
  {
    seq(|messages|, i requires 0 <= i < |messages| => EncodeMessage(messages[i]))
  }

  lemma {:induction false} MessagesAppend(rows: seq<MessageRow>, messages: seq<Message>)
    requires DecodeAll(DecodeMessage, rows).Ok?
    ensures DecodeAll(DecodeMessage, rows + EncodeMessages(messages)).Ok?
    ensures ReadAll(DecodeMessage, rows + EncodeMessages(messages)) == ReadAll(DecodeMessage, rows) + messages
    decreases |messages|
  {
    hide DecodeAll, ReadAll, DecodeMessage, EncodeMessage;
    if messages == [] {
      assert rows + EncodeMessages(messages) == rows && ReadAll(DecodeMessage, rows) + messages == ReadAll(DecodeMessage, rows);
    } else {
      var n := |messages| - 1;
      var before, last := messages[..n], messages[n];
      MessagesAppend(rows, before);
      MessageRoundTrip(last);
      ReadAllAppend(DecodeMessage, rows + EncodeMessages(before), EncodeMessage(last), last);
      assert rows + EncodeMessages(messages) == (rows + EncodeMessages(before)) + [EncodeMessage(last)];
      assert ReadAll(DecodeMessage, rows) + messages == (ReadAll(DecodeMessage, rows) + before) + [last];
    }
  }

  /** Every record of the file decodes. */
  ghost predicate Intact(p: PersistedState) {
    && (p.manifest.Some? ==> IntoManifest(p.manifest.value, []).Ok?)
    && DecodeAll(DecodeProgress, p.progress).Ok?
    && DecodeAll(DecodeCheckpoint, p.checkpoints).Ok?
    && DecodeAll(DecodeMessage, p.transcript).Ok?
  }

  /** What a file says about its session. */
  function StateOf(p: PersistedState, id: SessionId): SessionState {
    SessionState(
      if p.manifest.Some? && IntoManifest(p.manifest.value, id).Ok? then Some(IntoManifest(p.manifest.value, id).value) else None,
      p.features,
      ReadAll(DecodeProgress, p.progress),
      ReadAll(DecodeCheckpoint, p.checkpoints),
      ReadAll(DecodeMessage, p.transcript))
  }

  lemma StateIsCanonical(p: PersistedState, id: SessionId)
    ensures Canon(Filesystem, id, StateOf(p, id)) == StateOf(p, id)
    ensures Intact(p) ==> (StateOf(p, id).manifest.Some? <==> p.manifest.Some?)
  {
  }

  class FilesystemMemoryBackend {
    var files: map<string, PersistedState>

    ghost predicate Valid()
      reads this
    {
      forall path :: path in files ==> Intact(files[path])
    }

    function Stored(id: SessionId): PersistedState
      reads this
    {
      if SessionPath(id) in files then files[SessionPath(id)] else NO_STATE
    }

    function View(id: SessionId): SessionState
      reads this
    {
      StateOf(Stored(id), id)
    }

    constructor ()
      ensures Valid() && forall id :: View(id) == NEW_SESSION
    {
      files := map[];
    }

    /** `load_state`, with a new state for a missing file. */
    method LoadState(id: SessionId) returns (p: PersistedState)
      ensures p == Stored(id)
      ensures Valid() ==> Intact(p)
    {
      var hex := HexEncode(id);
      p := if hex + ".json" in files then files[hex + ".json"] else NO_STATE;
    }

    /** `save_state`: replaces the session's file and no other. */
    method SaveState(id: SessionId, p: PersistedState)
      requires Valid() && Intact(p)
      modifies this
      ensures Valid() && Stored(id) == p
      ensures forall other :: other != id ==> Stored(other) == old(Stored(other))
    {
      hide Intact, SessionPath;
      var path := PathOf(id);
      files := files[path := p];
      forall other | other != id ensures Stored(other) == old(Stored(other)) {
        if SessionPath(other) == SessionPath(id) { PathInjective(other, id); }
      }
    }

    method PathOf(id: SessionId) returns (path: string)
      ensures path == SessionPath(id)
    {
      var hex := HexEncode(id);
      path := hex + ".json";
    }

    method IsInitialized(id: SessionId) returns (r: bool)
      requires Valid()
      ensures r == View(id).manifest.Some?
    {
      var p := LoadState(id);
      StateIsCanonical(p, id);
      r := p.manifest.Some?;
    }

    /** `initialize_session_if_missing`: a refused time leaves the file as it was. */
    method InitializeSessionIfMissing(id: SessionId, manifest: SessionManifest, list: seq<FeatureRecord>, entry: Option<ProgressEntry>, checkpoint: Option<RunCheckpoint>)
      returns (r: Result<bool, MemoryError>)
      requires Valid()
      modifies this
      ensures Valid()
      ensures (View(id), if r.Ok? then Flag(r.value) else Failed(r.error))
           == DurableApply(Filesystem, old(View(id)), Initialize(id, manifest, list, entry, checkpoint))
      ensures forall other :: other != id ==> View(other) == old(View(other))
    {
      var state := LoadState(id);
      StateIsCanonical(state, id);
      FileInitializeStep(View(id), id, manifest, list, entry, checkpoint);
      hide Valid, DurableApply, Canon, CanonManifest, DecodeAll, IntoManifest, FromManifest, PostEpoch, CheckpointPostEpoch;
      if state.manifest.Some? {
        return Ok(false);
      }
      ManifestRoundTrip(manifest, id);
      ManifestRoundTrip(manifest, []);
      ghost var before := state;
      state := state.(manifest := Some(FromManifest(manifest)), features := list);
      if entry.Some? {
        ProgressRoundTrip(entry.value);
        var row := EncodeProgress(entry.value);
        if row.Err? {
          return Err(row.error);
        }
        ReadAllAppend(DecodeProgress, state.progress, row.value, entry.value);
        state := state.(progress := state.progress + [row.value]);
      }
      if checkpoint.Some? {
        CheckpointRoundTrip(checkpoint.value);
        var row := EncodeCheckpoint(checkpoint.value);
        if row.Err? {
          return Err(row.error);
        }
        ReadAllAppend(DecodeCheckpoint, state.checkpoints, row.value, checkpoint.value);
        state := state.(checkpoints := state.checkpoints + [row.value]);
      }
      SaveState(id, state);
      r := Ok(true);
    }

    /** `load_bootstrap_state`: on any files an answer is the view, and on intact files there is one. */
    method LoadBootstrapState(id: SessionId) returns (r: Result<BootstrapState, MemoryError>)
      ensures r.Ok? ==> r.value == Bootstrap(View(id))
      ensures Valid() ==> r.Ok?
    {
      hide IntoManifest, DecodeAll, DecodeProgress, DecodeCheckpoint;
      var p := LoadState(id);
      var manifest: Option<SessionManifest> := None;
      if p.manifest.Some? {
        SameKeyOrNot(p.manifest.value, id);
        var found := IntoManifest(p.manifest.value, id);
        if found.Err? {
          return Err(found.error);
        }
        manifest := Some(found.value);
      }
      var entries := ReadRows(DecodeProgress, p.progress);
      if entries.Err? {
        return Err(entries.error);
      }
      var runs := ReadRows(DecodeCheckpoint, p.checkpoints);
      if runs.Err? {
        return Err(runs.error);
      }
      r := Ok(BootstrapState(manifest, p.features, entries.value, runs.value));
    }

    /** Whether a manifest decodes does not depend on the key. */
    lemma SameKeyOrNot(m: PersistedManifest, id: SessionId)
      ensures IntoManifest(m, id).Ok? <==> IntoManifest(m, []).Ok?
    {
    }

    method SaveManifest(id: SessionId, manifest: SessionManifest)
      requires Valid()
      modifies this
      ensures Valid()
      ensures (View(id), Done) == DurableApply(Filesystem, old(View(id)), Op.SaveManifest(id, manifest))
      ensures forall other :: other != id ==> View(other) == old(View(other))
    {
      hide Valid, DecodeAll, IntoManifest, FromManifest;
      var state := LoadState(id);
      ManifestRoundTrip(manifest, id);
      ManifestRoundTrip(manifest, []);
      SaveState(id, state.(manifest := Some(FromManifest(manifest))));
    }

    method AppendProgressEntry(id: SessionId, entry: ProgressEntry) returns (e: Option<MemoryError>)
      requires Valid()
      modifies this
      ensures Valid()
      ensures (View(id), if e.Some? then Failed(e.value) else Done) == DurableApply(Filesystem, old(View(id)), AppendProgress(id, entry))
      ensures forall other :: other != id ==> View(other) == old(View(other))
    {
      var state := LoadState(id);
      StateIsCanonical(state, id);
      AppendProgressStep(Filesystem, View(id), id, entry);
      hide Valid, DurableApply, Canon, DecodeAll, IntoManifest, ReadAll;
      ProgressRoundTrip(entry);
      var row := EncodeProgress(entry);
      if row.Err? {
        return Some(row.error);
      }
      ReadAllAppend(DecodeProgress, state.progress, row.value, entry);
      SaveState(id, state.(progress := state.progress + [row.value]));
      e := None;
    }

    method ReplaceFeatureList(id: SessionId, list: seq<FeatureRecord>)
      requires Valid()
      modifies this
      ensures Valid()
      ensures (View(id), Done) == DurableApply(Filesystem, old(View(id)), ReplaceFeatures(id, list))
      ensures forall other :: other != id ==> View(other) == old(View(other))
    {
      var state := LoadState(id);
      StateIsCanonical(state, id);
      FeaturesStep(Filesystem, View(id), id, list);
      hide Valid, DurableApply, Canon, DecodeAll, IntoManifest, ReadAll;
      SaveState(id, state.(features := list));
    }

    method UpdateFeaturePass(id: SessionId, featureId: string, passes: bool) returns (e: Option<MemoryError>)
      requires Valid()
      modifies this
      ensures Valid()
      ensures (View(id), if e.Some? then Failed(e.value) else Done) == DurableApply(Filesystem, old(View(id)), Op.UpdateFeaturePass(id, featureId, passes))
      ensures forall other :: other != id ==> View(other) == old(View(other))
    {
      var state := LoadState(id);
      StateIsCanonical(state, id);
      UpdateStep(Filesystem, View(id), id, featureId, passes);
      hide Valid, DurableApply, Canon, DecodeAll, IntoManifest, ReadAll, FindFeature;
      var at := FindFeature(state.features, featureId);
      if at.Some? {
        var i := at.value;
        SaveState(id, state.(features := state.features[i := state.features[i].(passes := passes)]));
        return None;
      }
      e := Some(NotFound);
    }

    method RecordRunCheckpoint(id: SessionId, checkpoint: RunCheckpoint) returns (e: Option<MemoryError>)
      requires Valid()
      modifies this
      ensures Valid()
      ensures (View(id), if e.Some? then Failed(e.value) else Done) == DurableApply(Filesystem, old(View(id)), RecordCheckpoint(id, checkpoint))
      ensures forall other :: other != id ==> View(other) == old(View(other))
    {
      var state := LoadState(id);
      StateIsCanonical(state, id);
      RecordCheckpointStep(Filesystem, View(id), id, checkpoint);
      hide Valid, DurableApply, Canon, DecodeAll, IntoManifest, ReadAll;
      CheckpointRoundTrip(checkpoint);
      var row := EncodeCheckpoint(checkpoint);
      if row.Err? {
        return Some(row.error);
      }
      ReadAllAppend(DecodeCheckpoint, state.checkpoints, row.value, checkpoint);
      SaveState(id, state.(checkpoints := state.checkpoints + [row.value]));
      e := None;
    }

    method LoadTranscriptMessages(id: SessionId) returns (r: Result<seq<Message>, MemoryError>)
      ensures r.Ok? ==> r.value == View(id).transcript
      ensures Valid() ==> r.Ok?
    {
      hide DecodeAll, DecodeMessage;
      var p := LoadState(id);
      r := ReadRows(DecodeMessage, p.transcript);
    }

    method AppendTranscriptMessages(id: SessionId, messages: seq<Message>)
      requires Valid()
      modifies this
      ensures Valid()
      ensures (View(id), Done) == DurableApply(Filesystem, old(View(id)), AppendTranscript(id, messages))
      ensures forall other :: other != id ==> View(other) == old(View(other))
    {
      var state := LoadState(id);
      StateIsCanonical(state, id);
      AppendTranscriptStep(Filesystem, View(id), id, messages);
      hide Valid, DurableApply, Canon, DecodeAll, IntoManifest, ReadAll;
      MessagesAppend(state.transcript, messages);
      SaveState(id, state.(transcript := state.transcript + EncodeMessages(messages)));
    }

    lemma ReadsChangeNothing(op: Op)
      ensures op.IsInitialized? ==> DurableApply(Filesystem, View(op.session), op) == (View(op.session), Flag(View(op.session).manifest.Some?))
      ensures op.LoadBootstrap? ==> DurableApply(Filesystem, View(op.session), op) == (View(op.session), Loaded(Bootstrap(View(op.session))))
      ensures op.LoadTranscript? ==> DurableApply(Filesystem, View(op.session), op) == (View(op.session), Messages(View(op.session).transcript))
    {
      StateIsCanonical(Stored(op.session), op.session);
    }

    /** Any operation of the trait. */
    method Perform(op: Op) returns (reply: Reply)
      requires Valid()
      modifies this
      ensures Valid()
      ensures (View(op.session), reply) == DurableApply(Filesystem, old(View(op.session)), op)
      ensures forall other :: other != op.session ==> View(other) == old(View(other))
    {
      ReadsChangeNothing(op);
      hide View, Valid, DurableApply;
      var id := op.session;
      match op {
        case IsInitialized(_) =>
          var flag := IsInitialized(id);
          reply := Flag(flag);
        case Initialize(_, manifest, list, entry, checkpoint) =>
          var r := InitializeSessionIfMissing(id, manifest, list, entry, checkpoint);
          reply := if r.Ok? then Flag(r.value) else Failed(r.error);
        case LoadBootstrap(_) =>
          var r := LoadBootstrapState(id);
          reply := Loaded(r.value);
        case SaveManifest(_, manifest) =>
          SaveManifest(id, manifest);
          reply := Done;
        case AppendProgress(_, entry) =>
          var e := AppendProgressEntry(id, entry);
          reply := if e.Some? then Failed(e.value) else Done;
        case ReplaceFeatures(_, list) =>
          ReplaceFeatureList(id, list);
          reply := Done;
        case UpdateFeaturePass(_, featureId, passes) =>
          var e := UpdateFeaturePass(id, featureId, passes);
          reply := if e.Some? then Failed(e.value) else Done;
        case RecordCheckpoint(_, checkpoint) =>
          var e := RecordRunCheckpoint(id, checkpoint);
          reply := if e.Some? then Failed(e.value) else Done;
        case LoadTranscript(_) =>
          var r := LoadTranscriptMessages(id);
          reply := Messages(r.value);
        case AppendTranscript(_, messages) =>
          AppendTranscriptMessages(id, messages);
          reply := Done;
      }
    }
  }

  /** Any sequence of operations, over any interleaving of sessions, is answered as by the in-memory backend. */
  method Replay(store: FilesystemMemoryBackend, memory: InMemoryMemoryBackend, ops: seq<Op>) returns (durable: seq<Reply>, reference: seq<Reply>)
    requires store.Valid() && forall id :: store.View(id) == Canon(Filesystem, id, memory.View(id))
    requires forall i :: 0 <= i < |ops| ==> TimesOk(ops[i])
    modifies store, memory
    ensures store.Valid() && forall id :: store.View(id) == Canon(Filesystem, id, memory.View(id))
    ensures |durable| == |reference| == |ops|
    ensures forall i :: 0 <= i < |ops| ==> durable[i] == CanonReply(Filesystem, ops[i].session, reference[i])
  {
    hide DurableApply, Apply, Canon, CanonReply, FilesystemMemoryBackend.View, FilesystemMemoryBackend.Valid, InMemoryMemoryBackend.View, TimesOk;
    durable, reference := [], [];
    for i := 0 to |ops|
      invariant store.Valid() && forall id :: store.View(id) == Canon(Filesystem, id, memory.View(id))
      invariant |durable| == |reference| == i
      invariant forall j :: 0 <= j < i ==> durable[j] == CanonReply(Filesystem, ops[j].session, reference[j])
    {
      StepRefinesIff(Filesystem, memory.View(ops[i].session), ops[i]);
      var a := store.Perform(ops[i]);
      var b := memory.Perform(ops[i]);
      durable, reference := durable + [a], reference + [b];
    }
  }
}
