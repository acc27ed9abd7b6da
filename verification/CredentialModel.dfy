/**
 Credentials as values (fprovider/src/credentials.rs): what each operation does to the stored entries, which expire lazily,
 and an eager reading of the same operations in which nothing is ever removed for being expired.
 */
module CredentialModel {
  import opened Wrappers
  import MemoryModel

  type Time = MemoryModel.Time

  const MAX_COUNT: nat := 0xFFFF_FFFF_FFFF_FFFF

  datatype ProviderId = OpenCodeZen | OpenAi | Anthropic | Ollama

  datatype CredentialKind = ApiKeyKind | BrowserSessionKind

  datatype Action = WasSet | WasRotated | AccessGranted | AccessDenied | WasCleared

  datatype Event = Event(provider: ProviderId, kind: Option<CredentialKind>, action: Action)

  datatype CredentialMetadata = CredentialMetadata(
    createdAt: Time,
    expiresAt: Option<Time>,
    lastUsedAt: Option<Time>,
    lastRotatedAt: Option<Time>,
    accessCount: nat)
  {
    /** All but the time of rotation. */
    function Unrotated(): CredentialMetadata {
      this.(lastRotatedAt := None)
    }

    /** `mark_used`, with its saturating count. */
    function MarkUsed(now: Time): CredentialMetadata {
      this.(lastUsedAt := Some(now), accessCount := if accessCount >= MAX_COUNT then MAX_COUNT else accessCount + 1)
    }
  }

  datatype Credential = ApiKey(secret: string) | BrowserSession(token: string, sessionExpiresAt: Option<Time>)
  {
    function Kind(): CredentialKind {
      if ApiKey? then ApiKeyKind else BrowserSessionKind
    }
  }

  datatype CredentialEntry = CredentialEntry(credential: Credential, metadata: CredentialMetadata)

  datatype CredentialError = EmptyKey | EmptyToken | ZeroTtl | TtlOutOfRange

  datatype Op =
    | SetApiKey(provider: ProviderId, key: string)
    | SetApiKeyWithTtl(provider: ProviderId, key: string, ttl: nat)
    | RotateApiKey(provider: ProviderId, key: string, lifetime: Option<nat>)
    | SetBrowserSession(provider: ProviderId, token: string, expiresAt: Option<Time>)
    | HasCredentials(provider: ProviderId)
    | KindOf(provider: ProviderId)
    | MetadataOf(provider: ProviderId)
    | WithApiKey(provider: ProviderId)
    | WithBrowserSession(provider: ProviderId)
    | Revoke(provider: ProviderId)
  {
    /** Whether the operation only looks: it neither stores, nor uses, nor revokes. */
    predicate Looks() {
      HasCredentials? || KindOf? || MetadataOf?
    }
  }

  datatype Reply =
    | Stored
    | Rejected(error: CredentialError)
    | Flag(value: bool)
    | Kind(kind: Option<CredentialKind>)
    | Metadata(metadata: Option<CredentialMetadata>)
    | Opened(credential: Option<Credential>)
    | Cleared(had: bool)

  /** An operation and the times it reads: `now` first, and `later` for the entry of a key with a time to live. */
  datatype TimedOp = TimedOp(op: Op, now: Time, later: Time)

  predicate Expired(at: Option<Time>, now: Time) {
    at.Some? && at.value <= now
  }

  // ---- requests to store, common to both readings ----

  /** What a storing operation asks for: a credential, its expiry and the time of its entry. */
  datatype Deposit = Deposit(credential: Credential, expiresAt: Option<Time>, createdAt: Time)

  function KeyDeposit(key: string, expiresAt: Option<Time>, createdAt: Time): Result<Deposit, CredentialError> {
    if key == "" then Err(EmptyKey) else Ok(Deposit(ApiKey(key), expiresAt, createdAt))
  }

  function TtlDeposit(key: string, ttl: nat, now: Time, later: Time): Result<Deposit, CredentialError> {
    if ttl == 0 then Err(ZeroTtl)
    else if now + ttl >= 0x8000_0000_0000_0000 * 1_000_000_000 then Err(TtlOutOfRange)
    else KeyDeposit(key, Some(now + ttl), later)
  }

  /** The deposit of a storing operation, its refusal, or nothing for the other operations. */
  function Asked(t: TimedOp): Option<Result<Deposit, CredentialError>> {
    match t.op
    case SetApiKey(_, key) => Some(KeyDeposit(key, None, t.now))
    case SetApiKeyWithTtl(_, key, ttl) => Some(TtlDeposit(key, ttl, t.now, t.later))
    case RotateApiKey(_, key, lifetime) =>
      Some(if lifetime.Some? then TtlDeposit(key, lifetime.value, t.now, t.later) else KeyDeposit(key, None, t.now))
    case SetBrowserSession(_, token, expiresAt) =>
      Some(if token == "" then Err(EmptyToken) else Ok(Deposit(BrowserSession(token, expiresAt), expiresAt, t.now)))
    case _ => None
  }

  // ---- the entries as stored, with lazy expiry ----

  type Entries = map<ProviderId, CredentialEntry>

  datatype Outcome = Outcome(entries: Entries, reply: Reply, events: seq<Event>)

  /** `remove_if_expired`. */
  function Sweep(l: Entries, p: ProviderId, now: Time): Entries {
    if p in l && Expired(l[p].metadata.expiresAt, now) then l - {p} else l
  }

  /** A stored entry that is not expired. */
  predicate IsLive(l: Entries, p: ProviderId, now: Time) {
    p in l && !Expired(l[p].metadata.expiresAt, now)
  }

  /** `insert_credential` and the event that follows it: a rotation when an entry, expired or not, is still there. */
  function Insert(l: Entries, p: ProviderId, d: Deposit): Outcome {
    var rotated := p in l;
    Outcome(
      l[p := CredentialEntry(d.credential, CredentialMetadata(d.createdAt, d.expiresAt, None, if rotated then Some(d.createdAt) else None, 0))],
      Stored,
      [Event(p, Some(d.credential.Kind()), if rotated then WasRotated else WasSet)])
  }

  /** `with_api_key` and `with_browser_session`. */
  function Open(l: Entries, p: ProviderId, kind: CredentialKind, now: Time): Outcome {
    var swept := Sweep(l, p, now);
    if p in swept && swept[p].credential.Kind() == kind then
      Outcome(swept[p := swept[p].(metadata := swept[p].metadata.MarkUsed(now))], Opened(Some(swept[p].credential)), [Event(p, Some(kind), AccessGranted)])
    else
      Outcome(swept, Opened(None), [Event(p, Some(kind), AccessDenied)])
  }

  function Lazy(l: Entries, t: TimedOp): Outcome {
    var p := t.op.provider;
    match t.op
    case HasCredentials(_) => Outcome(Sweep(l, p, t.now), Flag(p in Sweep(l, p, t.now)), [])
    case KindOf(_) => Outcome(Sweep(l, p, t.now), Kind(if p in Sweep(l, p, t.now) then Some(l[p].credential.Kind()) else None), [])
    case MetadataOf(_) => Outcome(Sweep(l, p, t.now), Metadata(if p in Sweep(l, p, t.now) then Some(l[p].metadata) else None), [])
    case WithApiKey(_) => Open(l, p, ApiKeyKind, t.now)
    case WithBrowserSession(_) => Open(l, p, BrowserSessionKind, t.now)
    case Revoke(_) =>
      if p in l then Outcome(l - {p}, Cleared(true), [Event(p, Some(l[p].credential.Kind()), WasCleared)]) else Outcome(l, Cleared(false), [])
    case _ =>
      var asked := Asked(t).value;
      if asked.Err? then Outcome(l, Rejected(asked.error), []) else Insert(l, p, asked.value)
  }

  // ---- the eager reading ----

  /** The last deposit not since revoked, with its uses. Nothing here depends on what was looked at in between. */
  datatype Held = Held(deposit: Deposit, lastUsedAt: Option<Time>, uses: nat)
  {
    /** What the metadata tells of it, all but a rotation. */
    function Told(): CredentialMetadata {
      CredentialMetadata(deposit.createdAt, deposit.expiresAt, lastUsedAt, None, Capped(uses))
    }
  }

  type Holdings = map<ProviderId, Held>

  /** What is held and not expired at a time. */
  function Live(h: Holdings, p: ProviderId, now: Time): Option<Held> {
    if p in h && !Expired(h[p].deposit.expiresAt, now) then Some(h[p]) else None
  }

  predicate Grants(h: Holdings, t: TimedOp) {
    var live := Live(h, t.op.provider, t.now);
    live.Some? && ((t.op.WithApiKey? && live.value.deposit.credential.ApiKey?) || (t.op.WithBrowserSession? && live.value.deposit.credential.BrowserSession?))
  }

  function Eager(h: Holdings, t: TimedOp): Holdings {
    var p := t.op.provider;
    var asked := Asked(t);
    if asked.Some? then if asked.value.Ok? then h[p := Held(asked.value.value, None, 0)] else h
    else if t.op.Revoke? then h - {p}
    else if Grants(h, t) then h[p := h[p].(lastUsedAt := Some(t.now), uses := h[p].uses + 1)]
    else h
  }

  function Capped(n: nat): nat {
    if n <= MAX_COUNT then n else MAX_COUNT
  }

  /** Whether a reply is what the holdings call for. A rotation time, and the answer for an expired holding, are left open. */
  predicate Answers(h: Holdings, t: TimedOp, reply: Reply) {
    var p := t.op.provider;
    var live := Live(h, p, t.now);
    match t.op
    case HasCredentials(_) => reply == Flag(live.Some?)
    case KindOf(_) => reply == Kind(if live.Some? then Some(live.value.deposit.credential.Kind()) else None)
    case MetadataOf(_) =>
      && reply.Metadata? && (reply.metadata.Some? <==> live.Some?)
      && (live.Some? ==> reply.metadata.value.Unrotated() == live.value.Told())
    case WithApiKey(_) => reply == Opened(if Grants(h, t) then Some(live.value.deposit.credential) else None)
    case WithBrowserSession(_) => reply == Opened(if Grants(h, t) then Some(live.value.deposit.credential) else None)
    case Revoke(_) => reply.Cleared? && (live.Some? ==> reply.had) && (p !in h ==> !reply.had)
    case _ => reply == if Asked(t).value.Ok? then Stored else Rejected(Asked(t).value.error)
  }

  // ---- lazy expiry refines the eager reading ----

  function Lookup<V>(m: map<ProviderId, V>, p: ProviderId): Option<V> {
    if p in m then Some(m[p]) else None
  }

  /** An entry tells of what is held; a missing one of what is not held or expired. */
  predicate Matches(entry: Option<CredentialEntry>, held: Option<Held>, now: Time) {
    if entry.Some? then
      held.Some? && entry.value.credential == held.value.deposit.credential && entry.value.metadata.Unrotated() == held.value.Told()
    else
      held.Some? ==> Expired(held.value.deposit.expiresAt, now)
  }

  /** The stored entries are the holdings, except for expired ones that were removed. */
  ghost predicate Refines(l: Entries, h: Holdings, now: Time) {
    forall p :: Matches(Lookup(l, p), Lookup(h, p), now)
  }

  lemma StoringAsks(t: TimedOp)
    ensures Asked(t).Some? <==> t.op.SetApiKey? || t.op.SetApiKeyWithTtl? || t.op.RotateApiKey? || t.op.SetBrowserSession?
  {
  }

  /** An operation touches its own provider only. */
  lemma OthersKept(l: Entries, h: Holdings, t: TimedOp, q: ProviderId)
    requires q != t.op.provider
    ensures Lookup(Lazy(l, t).entries, q) == Lookup(l, q) && Lookup(Eager(h, t), q) == Lookup(h, q)
  {
    hide Asked;
    StoringAsks(t);
  }

  lemma StoringMatches(l: Entries, h: Holdings, t: TimedOp)
    requires Asked(t).Some? && Matches(Lookup(l, t.op.provider), Lookup(h, t.op.provider), t.now) && t.now <= t.later
    ensures Answers(h, t, Lazy(l, t).reply)
    ensures Matches(Lookup(Lazy(l, t).entries, t.op.provider), Lookup(Eager(h, t), t.op.provider), t.later)
  {
    hide Asked;
    StoringAsks(t);
  }

  lemma SweepMatches(l: Entries, h: Holdings, p: ProviderId, now: Time)
    requires Matches(Lookup(l, p), Lookup(h, p), now)
    ensures Matches(Lookup(Sweep(l, p, now), p), Lookup(h, p), now)
    ensures p in Sweep(l, p, now) <==> Live(h, p, now).Some?
    ensures p in Sweep(l, p, now) ==> p in l && Sweep(l, p, now)[p] == l[p]
  {
  }

  lemma ReadingMatches(l: Entries, h: Holdings, t: TimedOp)
    requires Asked(t).None? && Matches(Lookup(l, t.op.provider), Lookup(h, t.op.provider), t.now) && t.now <= t.later
    ensures Answers(h, t, Lazy(l, t).reply)
    ensures Matches(Lookup(Lazy(l, t).entries, t.op.provider), Lookup(Eager(h, t), t.op.provider), t.later)
  {
    SweepMatches(l, h, t.op.provider, t.now);
    hide Asked, Sweep;
    StoringAsks(t);
  }

  lemma StepRefines(l: Entries, h: Holdings, before: Time, t: TimedOp)
    requires Refines(l, h, before) && before <= t.now <= t.later
    ensures Answers(h, t, Lazy(l, t).reply)
    ensures Refines(Lazy(l, t).entries, Eager(h, t), t.later)
  {
    hide Lazy, Eager, Answers, Lookup, Asked;
    var p := t.op.provider;
    assert Matches(Lookup(l, p), Lookup(h, p), t.now);
    if Asked(t).Some? {
      StoringMatches(l, h, t);
    } else {
      ReadingMatches(l, h, t);
    }
    forall q ensures Matches(Lookup(Lazy(l, t).entries, q), Lookup(Eager(h, t), q), t.later) {
      if q != p {
        OthersKept(l, h, t, q);
        assert Matches(Lookup(l, q), Lookup(h, q), before);
      }
    }
  }

  /** Each operation reads the clock no earlier than the one before it. */
  ghost predicate InOrder(ops: seq<TimedOp>) {
    && (forall i :: 0 <= i < |ops| ==> ops[i].now <= ops[i].later)
    && (forall i, j :: 0 <= i < j < |ops| ==> ops[i].later <= ops[j].now)
  }

  /** The holdings after a history. */
  function History(ops: seq<TimedOp>): Holdings {
    if ops == [] then map[] else Eager(History(ops[..|ops| - 1]), ops[|ops| - 1])
  }

  /** The entries and events after a history, and all replies. */
  datatype Run = Run(entries: Entries, replies: seq<Reply>, events: seq<Event>)

  function Replayed(ops: seq<TimedOp>): (r: Run)
    ensures |r.replies| == |ops|
  {
    if ops == [] then Run(map[], [], [])
    else
      var r := Replayed(ops[..|ops| - 1]);
      var out := Lazy(r.entries, ops[|ops| - 1]);
      Run(out.entries, r.replies + [out.reply], r.events + out.events)
  }

  lemma {:induction false} RunRefines(ops: seq<TimedOp>, now: Time)
    requires InOrder(ops) && forall i :: 0 <= i < |ops| ==> ops[i].later <= now
    ensures Refines(Replayed(ops).entries, History(ops), now)
    decreases |ops|
  {
    hide Lazy, Eager, Answers;
    if ops != [] {
      hide Refines;
      var n := |ops| - 1;
      RunRefines(ops[..n], ops[n].now);
      StepRefines(Replayed(ops[..n]).entries, History(ops[..n]), ops[n].now, ops[n]);
      RefinesLater(Replayed(ops).entries, History(ops), ops[n].later, now);
    }
  }

  lemma RefinesLater(l: Entries, h: Holdings, before: Time, now: Time)
    requires Refines(l, h, before) && before <= now
    ensures Refines(l, h, now)
  {
    hide Lookup;
    forall p ensures Matches(Lookup(l, p), Lookup(h, p), now) {
      assert Matches(Lookup(l, p), Lookup(h, p), before);
    }
  }

  lemma {:induction false} ReplyKept(ops: seq<TimedOp>, i: nat)
    requires i < |ops|
    ensures Replayed(ops).replies[i] == Lazy(Replayed(ops[..i]).entries, ops[i]).reply
    decreases |ops|
  {
    hide Lazy;
    var n := |ops| - 1;
    if i < n {
      ReplyKept(ops[..n], i);
      assert ops[..n][..i] == ops[..i];
    }
  }

  lemma ReplyIsEager(ops: seq<TimedOp>, i: nat)
    requires InOrder(ops) && i < |ops|
    ensures Answers(History(ops[..i]), ops[i], Replayed(ops).replies[i])
  {
    hide Lazy, Eager, Answers, Refines, History, Replayed;
    RunRefines(ops[..i], ops[i].now);
    StepRefines(Replayed(ops[..i]).entries, History(ops[..i]), ops[i].now, ops[i]);
    ReplyKept(ops, i);
  }

  /** Under a clock that never goes back, every reply of every history is what the eager reading calls for. */
  lemma ReadsAreEager(ops: seq<TimedOp>)
    requires InOrder(ops)
    ensures forall i :: 0 <= i < |ops| ==> Answers(History(ops[..i]), ops[i], Replayed(ops).replies[i])
  {
    hide *;
    forall i | 0 <= i < |ops| ensures Answers(History(ops[..i]), ops[i], Replayed(ops).replies[i]) {
      ReplyIsEager(ops, i);
    }
  }

  /** Replies equal up to what laziness may show: a rotation time, and whether a revocation found an expired entry. */
  predicate SameReply(a: Reply, b: Reply) {
    || a == b
    || (a.Cleared? && b.Cleared?)
    || (a.Metadata? && b.Metadata? && a.metadata.Some? && b.metadata.Some? && a.metadata.value.Unrotated() == b.metadata.value.Unrotated())
  }

  lemma AnswersAgree(h: Holdings, t: TimedOp, a: Reply, b: Reply)
    requires Answers(h, t, a) && Answers(h, t, b)
    ensures SameReply(a, b)
    ensures t.op.Revoke? && (t.op.provider !in h || Live(h, t.op.provider, t.now).Some?) ==> a == b
  {
  }

  lemma {:induction false} LookingKeepsHistory(ops: seq<TimedOp>, look: TimedOp, more: seq<TimedOp>)
    requires look.op.Looks()
    ensures History(ops + [look] + more) == History(ops + more)
    decreases |more|
  {
    if more == [] {
      assert (ops + [look] + more)[..|ops|] == ops && ops + more == ops;
    } else {
      hide Eager;
      var n := |more| - 1;
      LookingKeepsHistory(ops, look, more[..n]);
      assert (ops + [look] + more)[..|ops| + 1 + n] == ops + [look] + more[..n];
      assert (ops + more)[..|ops| + n] == ops + more[..n];
    }
  }

  lemma CutWithin(a: seq<TimedOp>, b: seq<TimedOp>, i: nat)
    requires i < |b|
    ensures (a + b)[..|a| + i] == a + b[..i] && (a + b)[|a| + i] == b[i]
  {
  }

  /** Looking at credentials, and the removals that come with it, never changes a later answer. */
  lemma LookingChangesNothing(ops: seq<TimedOp>, look: TimedOp, more: seq<TimedOp>, i: nat)
    requires look.op.Looks() && InOrder(ops + [look] + more) && InOrder(ops + more) && i < |more|
    ensures SameReply(Replayed(ops + [look] + more).replies[|ops| + 1 + i], Replayed(ops + more).replies[|ops| + i])
  {
    hide *;
    CutWithin(ops + [look], more, i);
    CutWithin(ops, more, i);
    LookingKeepsHistory(ops, look, more[..i]);
    SameHistorySameReply(ops + [look] + more, |ops| + 1 + i, ops + more, |ops| + i);
  }

  lemma SameHistorySameReply(a: seq<TimedOp>, i: nat, b: seq<TimedOp>, j: nat)
    requires InOrder(a) && InOrder(b) && i < |a| && j < |b|
    requires a[i] == b[j] && History(a[..i]) == History(b[..j])
    ensures SameReply(Replayed(a).replies[i], Replayed(b).replies[j])
  {
    hide *;
    ReplyIsEager(a, i);
    ReplyIsEager(b, j);
    AnswersAgree(History(a[..i]), a[i], Replayed(a).replies[i], Replayed(b).replies[j]);
  }

  // ---- what laziness shows ----

  /** The operation puts a new deposit in, or takes the one of the provider out. */
  predicate Replaces(t: TimedOp, p: ProviderId) {
    t.op.provider == p && (t.op.Revoke? || (Asked(t).Some? && Asked(t).value.Ok?))
  }

  /** A read of the credential, which removes it when it is expired. */
  predicate Reads(op: Op) {
    op.Looks() || op.WithApiKey? || op.WithBrowserSession?
  }

  /** Operation `i` read the present deposit at or after its expiry. */
  ghost predicate NoticedAt(ops: seq<TimedOp>, p: ProviderId, i: nat) {
    && i < |ops| && ops[i].op.provider == p && Reads(ops[i].op)
    && p in History(ops[..i]) && Expired(History(ops[..i])[p].deposit.expiresAt, ops[i].now)
    && forall j :: i < j < |ops| ==> !Replaces(ops[j], p)
  }

  ghost predicate Noticed(ops: seq<TimedOp>, p: ProviderId) {
    exists i :: NoticedAt(ops, p, i)
  }

  lemma NoticedStep(ops: seq<TimedOp>, t: TimedOp, p: ProviderId)
    ensures Noticed(ops + [t], p) <==>
      || (Noticed(ops, p) && !Replaces(t, p))
      || (t.op.provider == p && Reads(t.op) && p in History(ops) && Expired(History(ops)[p].deposit.expiresAt, t.now))
  {
    hide History, Replaces, Reads, Expired;
    var more, n := ops + [t], |ops|;
    assert more[..n] == ops && more[n] == t;
    forall i: nat | i < n ensures NoticedAt(more, p, i) <==> NoticedAt(ops, p, i) && !Replaces(t, p) {
      assert more[..i] == ops[..i];
      assert forall j :: i < j < n ==> more[j] == ops[j];
      if NoticedAt(more, p, i) {
        assert !Replaces(more[n], p);
        assert forall j :: i < j < n ==> !Replaces(more[j], p);
      }
    }
    assert NoticedAt(more, p, n) <==> t.op.provider == p && Reads(t.op) && p in History(ops) && Expired(History(ops)[p].deposit.expiresAt, t.now);
    if Noticed(ops, p) && !Replaces(t, p) {
      var i :| NoticedAt(ops, p, i);
      assert NoticedAt(more, p, i);
    }
    if Noticed(more, p) {
      var i :| NoticedAt(more, p, i);
    }
  }

  /** One step of both readings on one provider, whatever the time. */
  lemma StoredStep(l: Entries, h: Holdings, noticed: bool, t: TimedOp, p: ProviderId)
    requires p in l <==> p in h && !noticed
    requires p in l ==> l[p].metadata.expiresAt == h[p].deposit.expiresAt
    ensures var later := (noticed && !Replaces(t, p)) || (t.op.provider == p && Reads(t.op) && p in h && Expired(h[p].deposit.expiresAt, t.now));
      && (p in Lazy(l, t).entries <==> p in Eager(h, t) && !later)
      && (p in Lazy(l, t).entries ==> Lazy(l, t).entries[p].metadata.expiresAt == Eager(h, t)[p].deposit.expiresAt)
  {
    hide Asked, Expired;
    StoringAsks(t);
  }

  /** Over every history, at whatever times: an entry is stored exactly when its deposit is held and its expiry went unnoticed. */
  lemma {:induction false} StoredIff(ops: seq<TimedOp>, p: ProviderId)
    ensures p in Replayed(ops).entries <==> p in History(ops) && !Noticed(ops, p)
    ensures p in Replayed(ops).entries ==> Replayed(ops).entries[p].metadata.expiresAt == History(ops)[p].deposit.expiresAt
    decreases |ops|
  {
    if ops != [] {
      hide Lazy, Eager, Noticed, Replaces, Reads, Expired;
      var n := |ops| - 1;
      StoredIff(ops[..n], p);
      assert ops == ops[..n] + [ops[n]];
      NoticedStep(ops[..n], ops[n], p);
      StoredStep(Replayed(ops[..n]).entries, History(ops[..n]), Noticed(ops[..n], p), ops[n], p);
    }
  }

  /**
   The answer of a revocation, and `Set` against `Rotated` of a deposit, are the eager ones exactly when nothing is held,
   or what is held is over and was noticed to be, or is neither. With `NoticedIsOver`, under a clock that never goes
   back laziness shows exactly on a holding that is over without anyone having noticed.
   */
  lemma LazinessShowsIff(ops: seq<TimedOp>, p: ProviderId, d: Deposit, now: Time)
    ensures var l, h := Replayed(ops).entries, History(ops);
      var settled := p in h ==> (Noticed(ops, p) <==> Expired(h[p].deposit.expiresAt, now));
      && (Lazy(l, TimedOp(Revoke(p), now, now)).reply == Cleared(Live(h, p, now).Some?) <==> settled)
      && (Insert(l, p, d).events[0].action == (if Live(h, p, now).Some? then WasRotated else WasSet) <==> settled)
      && (Insert(l, p, d).entries[p].metadata.lastRotatedAt.Some? <==> Insert(l, p, d).events[0].action == WasRotated)
  {
    hide Replayed, History, Noticed, Expired;
    StoredIff(ops, p);
  }

  /** A noticed expiry stays over under a clock that never goes back. */
  lemma NoticedIsOver(ops: seq<TimedOp>, p: ProviderId, now: Time)
    requires InOrder(ops) && (forall i :: 0 <= i < |ops| ==> ops[i].later <= now) && Noticed(ops, p)
    ensures p in History(ops) && Expired(History(ops)[p].deposit.expiresAt, now)
  {
    var i: nat :| NoticedAt(ops, p, i);
    ReadingReplacesNothing(ops[i], p);
    DepositKept(ops, p, i, |ops|);
    assert ops[..|ops|] == ops;
  }

  lemma ReadingReplacesNothing(t: TimedOp, p: ProviderId)
    requires Reads(t.op)
    ensures !Replaces(t, p)
  {
    hide Asked;
    StoringAsks(t);
  }

  /** A deposit stays as long as nothing replaces it. */
  lemma {:induction false} DepositKept(ops: seq<TimedOp>, p: ProviderId, i: nat, k: nat)
    requires i <= k <= |ops| && p in History(ops[..i])
    requires forall j :: i <= j < k ==> !Replaces(ops[j], p)
    ensures p in History(ops[..k]) && History(ops[..k])[p].deposit == History(ops[..i])[p].deposit
    decreases k
  {
    if i < k {
      hide Asked, Expired;
      assert ops[..k][..k - 1] == ops[..k - 1];
      DepositKept(ops, p, i, k - 1);
      StoringAsks(ops[k - 1]);
    }
  }

  /**
   A key stored with a time to live and not replaced since is found until its time is over, and not at that time any
   more, whatever else happened before or after it was stored.
   */
  lemma TtlEndsOnTime(ops: seq<TimedOp>, i: nat, key: string, ttl: nat, look: Time)
    requires i < |ops| && key != "" && ttl > 0 && ops[i].now + ttl < 0x8000_0000_0000_0000 * 1_000_000_000
    requires var p := ops[i].op.provider;
      && (ops[i].op == SetApiKeyWithTtl(p, key, ttl) || ops[i].op == RotateApiKey(p, key, Some(ttl)))
      && (forall j :: i < j < |ops| ==> !Replaces(ops[j], p))
      && InOrder(ops + [TimedOp(HasCredentials(p), look, look)])
    ensures Replayed(ops + [TimedOp(HasCredentials(ops[i].op.provider), look, look)]).replies[|ops|] == Flag(look < ops[i].now + ttl)
  {
    hide *;
    var p, n := ops[i].op.provider, |ops|;
    var more := ops + [TimedOp(HasCredentials(p), look, look)];
    TtlDeposited(ops, i, key, ttl);
    DepositKept(ops, p, i + 1, n);
    assert ops[..n] == ops == more[..n] && more[n] == TimedOp(HasCredentials(p), look, look);
    ReplyIsEager(more, n);
    FoundIffLive(History(ops), more[n], Replayed(more).replies[n]);
  }

  lemma TtlDeposited(ops: seq<TimedOp>, i: nat, key: string, ttl: nat)
    requires i < |ops| && key != "" && ttl > 0 && ops[i].now + ttl < 0x8000_0000_0000_0000 * 1_000_000_000
    requires ops[i].op == SetApiKeyWithTtl(ops[i].op.provider, key, ttl) || ops[i].op == RotateApiKey(ops[i].op.provider, key, Some(ttl))
    ensures var h := History(ops[..i + 1]);
      ops[i].op.provider in h && h[ops[i].op.provider].deposit.expiresAt == Some(ops[i].now + ttl)
  {
    assert ops[..i + 1][..i] == ops[..i];
  }

  lemma FoundIffLive(h: Holdings, t: TimedOp, reply: Reply)
    requires t.op.HasCredentials? && Answers(h, t, reply)
    ensures reply == Flag(t.op.provider in h && (h[t.op.provider].deposit.expiresAt.Some? ==> t.now < h[t.op.provider].deposit.expiresAt.value))
  {
  }

  /** A key that is over is still there to be revoked or rotated, until someone looks. */
  lemma LazinessShows()
    ensures var store, look, revoke := TimedOp(SetApiKeyWithTtl(OpenAi, "k", 10), 0, 0), TimedOp(HasCredentials(OpenAi), 20, 20), TimedOp(Revoke(OpenAi), 20, 20);
      && Live(History([store]), OpenAi, 20) == None
      && Replayed([store, revoke]).replies == [Stored, Cleared(true)]
      && Replayed([store, look, revoke]).replies == [Stored, Flag(false), Cleared(false)]
      && Insert(Replayed([store]).entries, OpenAi, Deposit(ApiKey("k"), None, 20)).events == [Event(OpenAi, Some(ApiKeyKind), WasRotated)]
      && Insert(Replayed([store, look]).entries, OpenAi, Deposit(ApiKey("k"), None, 20)).events == [Event(OpenAi, Some(ApiKeyKind), WasSet)]
  {
    var store, look, revoke := TimedOp(SetApiKeyWithTtl(OpenAi, "k", 10), 0, 0), TimedOp(HasCredentials(OpenAi), 20, 20), TimedOp(Revoke(OpenAi), 20, 20);
    assert [store][..0] == [] && [store, look][..1] == [store] && [store, revoke][..1] == [store] && [store, look, revoke][..2] == [store, look];
    assert Replayed([store]).replies == [Stored];
    assert Replayed([store, look]).replies == [Stored, Flag(false)];
  }

  /** Were the clock to go back, an entry removed as expired would be missed: eagerly it would be live again. */
  lemma ClockMustNotGoBack()
    ensures var ops := [TimedOp(SetApiKeyWithTtl(OpenAi, "k", 10), 0, 0), TimedOp(HasCredentials(OpenAi), 20, 20), TimedOp(HasCredentials(OpenAi), 5, 5)];
      Replayed(ops).replies[2] == Flag(false) && Live(History(ops[..2]), OpenAi, 5).Some?
  {
    var store, look, back := TimedOp(SetApiKeyWithTtl(OpenAi, "k", 10), 0, 0), TimedOp(HasCredentials(OpenAi), 20, 20), TimedOp(HasCredentials(OpenAi), 5, 5);
    assert [store, look, back][..2] == [store, look] && [store, look][..1] == [store] && [store][..0] == [];
    assert Replayed([store]).entries == Lazy(map[], store).entries;
    assert OpenAi !in Replayed([store, look]).entries;
  }

  // ---- the audit log ----

  /** The accesses granted for a provider since it was last store or rotated. */
  function GrantsSince(events: seq<Event>, p: ProviderId): nat {
    if events == [] then 0
    else
      var last := events[|events| - 1];
      if last.provider == p && (last.action == WasSet || last.action == WasRotated) then 0
      else GrantsSince(events[..|events| - 1], p) + if last.provider == p && last.action == AccessGranted then 1 else 0
  }

  ghost predicate Audited(l: Entries, events: seq<Event>) {
    forall p :: p in l ==> l[p].metadata.accessCount == Capped(GrantsSince(events, p))
  }

  lemma StepAudited(l: Entries, events: seq<Event>, t: TimedOp)
    requires Audited(l, events)
    ensures Audited(Lazy(l, t).entries, events + Lazy(l, t).events)
  {
    hide Asked;
    StoringAsks(t);
    hide GrantsSince;
    var out := Lazy(l, t);
    assert out.events == [] ==> events + out.events == events;
    assert |out.events| <= 1;
    if out.events != [] {
      GrantsAfter(events, out.events[0]);
      assert events + out.events == events + [out.events[0]];
    }
  }

  lemma GrantsAfter(events: seq<Event>, e: Event)
    ensures forall p :: p != e.provider ==> GrantsSince(events + [e], p) == GrantsSince(events, p)
    ensures var before, after := GrantsSince(events, e.provider), GrantsSince(events + [e], e.provider);
      after == if e.action == WasSet || e.action == WasRotated then 0 else if e.action == AccessGranted then before + 1 else before
  {
    assert (events + [e])[..|events|] == events;
  }

  /**
   Over every history, at whatever times, the access count of an entry is the number of accesses its log grants since
   it was last set or rotated, up to the largest 64-bit count.
   */
  lemma {:induction false} CountsMatchLog(ops: seq<TimedOp>)
    ensures Audited(Replayed(ops).entries, Replayed(ops).events)
    decreases |ops|
  {
    if ops != [] {
      hide Lazy;
      var before := ops[..|ops| - 1];
      CountsMatchLog(before);
      StepAudited(Replayed(before).entries, Replayed(before).events, ops[|ops| - 1]);
    }
  }

  /** The log entry of an opening, told from the operation and its reply. */
  function OpeningEvent(t: TimedOp, reply: Reply): seq<Event> {
    if t.op.WithApiKey? || t.op.WithBrowserSession? then
      [Event(t.op.provider, Some(if t.op.WithApiKey? then ApiKeyKind else BrowserSessionKind),
             if reply.Opened? && reply.credential.Some? then AccessGranted else AccessDenied)]
    else []
  }

  function OpeningEvents(ops: seq<TimedOp>, replies: seq<Reply>): seq<Event>
    requires |replies| == |ops|
  {
    if ops == [] then [] else OpeningEvents(ops[..|ops| - 1], replies[..|ops| - 1]) + OpeningEvent(ops[|ops| - 1], replies[|ops| - 1])
  }

  /** The accesses granted and denied among some events. */
  function Accesses(events: seq<Event>): seq<Event> {
    if events == [] then []
    else
      var last := events[|events| - 1];
      Accesses(events[..|events| - 1]) + if last.action == AccessGranted || last.action == AccessDenied then [last] else []
  }

  lemma AccessesStep(events: seq<Event>, l: Entries, t: TimedOp)
    ensures Accesses(events + Lazy(l, t).events) == Accesses(events) + OpeningEvent(t, Lazy(l, t).reply)
  {
    hide Asked, Sweep;
    StoringAsks(t);
    var more := Lazy(l, t).events;
    if more == [] {
      assert events + more == events && Accesses(events) + [] == Accesses(events);
    } else {
      assert |more| == 1 && (events + more)[..|events|] == events;
      assert Accesses(events) + [] == Accesses(events);
    }
  }

  /**
   Over every history, at whatever times, the accesses in the log are the openings in their order: one entry for each,
   of the kind that was asked for and granted exactly when a credential was handed out.
   */
  lemma {:induction false} LogTellsOpenings(ops: seq<TimedOp>)
    ensures Accesses(Replayed(ops).events) == OpeningEvents(ops, Replayed(ops).replies)
    decreases |ops|
  {
    if ops != [] {
      hide Lazy, OpeningEvent, Accesses;
      var n := |ops| - 1;
      var before := Replayed(ops[..n]);
      LogTellsOpenings(ops[..n]);
      AccessesStep(before.events, before.entries, ops[n]);
      assert Replayed(ops).replies[..n] == before.replies;
    }
  }
}
