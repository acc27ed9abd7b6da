/** How the durable backends write times, enums and records, and how they read them back (sqlite.rs and filesystem.rs use the same codecs). */
module MemoryCodec {
  import opened Wrappers
  import opened ProviderModel
  import opened MemoryModel

  const NANOS := 1_000_000_000

  /** Seconds and nanoseconds after the epoch; an earlier time is refused. */
  function EncodeTime(t: Time): (r: Result<(int, int), MemoryError>)
    ensures r.Ok? <==> t >= 0
    ensures r.Err? ==> r.error == InvalidTime
  {
    if t < 0 then Err(InvalidTime) else Ok((t / NANOS, t % NANOS))
  }

  function DecodeTime(seconds: int, nanos: int): (r: Result<Time, MemoryError>)
    requires seconds < 0x8000_0000_0000_0000
    ensures r.Ok? <==> seconds >= 0 && 0 <= nanos < NANOS
  {
    if seconds < 0 then Err(StorageError)
    else if !(0 <= nanos < NANOS) then Err(StorageError)
    else Ok(seconds * NANOS + nanos)
  }

  /** A stored pair of 64-bit columns. */
  datatype Stamp = Stamp(seconds: int, nanos: int) {
    predicate InRange() { seconds < 0x8000_0000_0000_0000 }
  }

  /** A time is encoded exactly when it is not before the epoch, and then reads back as itself. */
  lemma TimeRoundTrip(t: Time)
    ensures EncodeTime(t).Ok? <==> t >= 0
    ensures t >= 0 ==> EncodeTime(t).value.0 < 0x8000_0000_0000_0000 && DecodeTime(EncodeTime(t).value.0, EncodeTime(t).value.1) == Ok(t)
  {
  }

  function StatusText(s: RunStatus): string {
    match s
    case InProgress => "in_progress"
    case Succeeded => "succeeded"
    case RunFailed => "failed"
  }

  function StatusOf(text: string): (r: Result<RunStatus, MemoryError>)
    ensures forall s :: r == Ok(s) <==> text == StatusText(s)
  {
    if text == "in_progress" then Ok(InProgress)
    else if text == "succeeded" then Ok(Succeeded)
    else if text == "failed" then Ok(RunFailed)
    else Err(StorageError)
  }

  function ShellText(s: InitShell): string {
    match s
    case Bash => "bash"
    case Sh => "sh"
    case Pwsh => "pwsh"
    case Cmd => "cmd"
  }

  function ShellOf(text: string): (r: Result<InitShell, MemoryError>)
    ensures forall s :: r == Ok(s) <==> text == ShellText(s)
  {
    if text == "bash" then Ok(Bash)
    else if text == "sh" then Ok(Sh)
    else if text == "pwsh" then Ok(Pwsh)
    else if text == "cmd" then Ok(Cmd)
    else Err(StorageError)
  }

  function RoleText(r: Role): string {
    match r
    case System => "system"
    case User => "user"
    case Assistant => "assistant"
    case Tool => "tool"
  }

  function RoleOf(text: string): (r: Result<Role, MemoryError>)
    ensures forall role :: r == Ok(role) <==> text == RoleText(role)
  {
    if text == "system" then Ok(System)
    else if text == "user" then Ok(User)
    else if text == "assistant" then Ok(Assistant)
    else if text == "tool" then Ok(Tool)
    else Err(StorageError)
  }

  // ---- records as stored ----

  /** A JSON text column, given by the list of strings it denotes. */
  datatype JsonText = JsonText(denotes: seq<string>)

  datatype ProgressRow = ProgressRow(runId: string, summary: string, createdAt: Stamp)

  datatype CheckpointRow = CheckpointRow(
    runId: string,
    startedAt: Stamp,
    completedSeconds: Option<int>,
    completedNanos: Option<int>,
    status: string,
    note: Option<string>)

  datatype MessageRow = MessageRow(role: string, content: string)

  function EncodeProgress(e: ProgressEntry): Result<ProgressRow, MemoryError> {
    match EncodeTime(e.createdAt)
    case Err(error) => Err(error)
    case Ok(at) => Ok(ProgressRow(e.runId, e.summary, Stamp(at.0, at.1)))
  }

  function DecodeStamp(s: Stamp): Result<Time, MemoryError> {
    if s.InRange() then DecodeTime(s.seconds, s.nanos) else Err(StorageError)
  }

  function DecodeProgress(r: ProgressRow): Result<ProgressEntry, MemoryError> {
    match DecodeStamp(r.createdAt)
    case Err(error) => Err(error)
    case Ok(at) => Ok(ProgressEntry(r.runId, r.summary, at))
  }

  function EncodeCheckpoint(c: RunCheckpoint): Result<CheckpointRow, MemoryError> {
    match EncodeTime(c.startedAt)
    case Err(error) => Err(error)
    case Ok(started) =>
      match c.completedAt
      case None => Ok(CheckpointRow(c.runId, Stamp(started.0, started.1), None, None, StatusText(c.status), c.note))
      case Some(completedAt) =>
        match EncodeTime(completedAt)
        case Err(error) => Err(error)
        case Ok(at) => Ok(CheckpointRow(c.runId, Stamp(started.0, started.1), Some(at.0), Some(at.1), StatusText(c.status), c.note))
  }

  function DecodeCompleted(r: CheckpointRow): Result<Option<Time>, MemoryError> {
    if r.completedSeconds.Some? && r.completedNanos.Some? then
      match DecodeStamp(Stamp(r.completedSeconds.value, r.completedNanos.value))
      case Err(error) => Err(error)
      case Ok(at) => Ok(Some(at))
    else if r.completedSeconds.None? && r.completedNanos.None? then Ok(None)
    else Err(StorageError)
  }

  function DecodeCheckpoint(r: CheckpointRow): Result<RunCheckpoint, MemoryError> {
    var completed, started, status := DecodeCompleted(r), DecodeStamp(r.startedAt), StatusOf(r.status);
    if completed.Err? then Err(completed.error)
    else if started.Err? then Err(started.error)
    else if status.Err? then Err(status.error)
    else Ok(RunCheckpoint(r.runId, started.value, completed.value, status.value, r.note))
  }

  function EncodeMessage(m: Message): MessageRow { MessageRow(RoleText(m.role), m.content) }

  function DecodeMessage(r: MessageRow): Result<Message, MemoryError> {
    match RoleOf(r.role)
    case Err(error) => Err(error)
    case Ok(role) => Ok(Message(role, r.content))
  }

  predicate PostEpoch(e: ProgressEntry) { e.createdAt >= 0 }

  predicate CheckpointPostEpoch(c: RunCheckpoint) {
    c.startedAt >= 0 && (c.completedAt.Some? ==> c.completedAt.value >= 0)
  }

  lemma ProgressRoundTrip(e: ProgressEntry)
    ensures EncodeProgress(e).Ok? <==> PostEpoch(e)
    ensures EncodeProgress(e).Err? ==> EncodeProgress(e).error == InvalidTime
    ensures PostEpoch(e) ==> DecodeProgress(EncodeProgress(e).value) == Ok(e)
  {
    if PostEpoch(e) { TimeRoundTrip(e.createdAt); }
  }

  lemma CheckpointRoundTrip(c: RunCheckpoint)
    ensures EncodeCheckpoint(c).Ok? <==> CheckpointPostEpoch(c)
    ensures EncodeCheckpoint(c).Err? ==> EncodeCheckpoint(c).error == InvalidTime
    ensures CheckpointPostEpoch(c) ==> DecodeCheckpoint(EncodeCheckpoint(c).value) == Ok(c)
  {
    if CheckpointPostEpoch(c) {
      TimeRoundTrip(c.startedAt);
      if c.completedAt.Some? { TimeRoundTrip(c.completedAt.value); }
    }
  }

  lemma MessageRoundTrip(m: Message)
    ensures DecodeMessage(EncodeMessage(m)) == Ok(m)
  {
  }

  // ---- lists ----

  /** Decodes all rows, or gives the first error. */
  function DecodeAll<R, T>(decode: R -> Result<T, MemoryError>, rows: seq<R>): (r: Result<seq<T>, MemoryError>)
    ensures r.Ok? <==> forall i :: 0 <= i < |rows| ==> decode(rows[i]).Ok?
    ensures r.Ok? ==> |r.value| == |rows| && forall i :: 0 <= i < |rows| ==> decode(rows[i]) == Ok(r.value[i])
  {
    if rows == [] then Ok([])
    else
      match decode(rows[0])
      case Err(e) => Err(e)
      case Ok(first) =>
        match DecodeAll(decode, rows[1..])
        case Err(e) => assert exists i :: 0 <= i < |rows| - 1 && decode(rows[1..][i]).Err? && decode(rows[i + 1]).Err?; Err(e)
        case Ok(rest) => Ok([first] + rest)
  }

  /** The loop by which both backends fill their result vectors. */
  method ReadRows<R, T>(decode: R -> Result<T, MemoryError>, rows: seq<R>) returns (r: Result<seq<T>, MemoryError>)
    ensures r == DecodeAll(decode, rows)
  {
    var values: seq<T> := [];
    ghost var whole := DecodeAll(decode, rows);
    assert rows[0..] == rows;
    assert whole.Ok? ==> [] + whole.value == whole.value;
    for i := 0 to |rows|
      invariant whole == Prefixed(values, DecodeAll(decode, rows[i..]))
    {
      assert rows[i..][1..] == rows[i + 1..];
      match decode(rows[i]) {
        case Err(e) => return Err(e);
        case Ok(value) =>
          ghost var rest := DecodeAll(decode, rows[i + 1..]);
          assert rest.Ok? ==> values + ([value] + rest.value) == values + [value] + rest.value;
          values := values + [value];
      }
    }
    assert values + [] == values;
    r := Ok(values);
  }

  function Prefixed<T>(values: seq<T>, r: Result<seq<T>, MemoryError>): Result<seq<T>, MemoryError> {
    if r.Ok? then Ok(values + r.value) else r
  }
}
