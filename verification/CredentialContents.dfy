/**
 What is read of a credential, told by the operation that stored it: which operations replace it, what every later read
 answers, at which times, and what each storing operation leaves in the entry and in the log.
 */
module CredentialContents {
  import opened Wrappers
  import opened CredentialModel

  /** The end of the representable times, in nanoseconds. */
  const END_OF_TIME: int := 0x8000_0000_0000_0000 * 1_000_000_000

  /** The operation stores a credential: the secret is not empty, and a lifetime is positive and ends in time. */
  predicate Stores(t: TimedOp) {
    match t.op
    case SetApiKey(_, key) => key != ""
    case SetApiKeyWithTtl(_, key, ttl) => key != "" && ttl > 0 && t.now + ttl < END_OF_TIME
    case RotateApiKey(_, key, lifetime) => key != "" && (lifetime.Some? ==> lifetime.value > 0 && t.now + lifetime.value < END_OF_TIME)
    case SetBrowserSession(_, token, _) => token != ""
    case _ => false
  }

  /** Nothing between two operations stores a credential of the provider or revokes it. */
  ghost predicate Undisturbed(ops: seq<TimedOp>, p: ProviderId, i: nat, k: nat)
    requires k <= |ops|
  {
    forall j :: i < j < k && ops[j].op.provider == p ==> !Stores(ops[j]) && !ops[j].op.Revoke?
  }

  lemma ReplacesIff(t: TimedOp, p: ProviderId)
    ensures Replaces(t, p) <==> t.op.provider == p && (Stores(t) || t.op.Revoke?)
  {
  }

  lemma UndisturbedKeeps(ops: seq<TimedOp>, p: ProviderId, i: nat, k: nat)
    requires i < k <= |ops| && Undisturbed(ops, p, i, k)
    ensures forall j :: i + 1 <= j < k ==> !Replaces(ops[j], p)
  {
    forall j | i + 1 <= j < k ensures !Replaces(ops[j], p) {
      ReplacesIff(ops[j], p);
    }
  }

  predicate Before(now: Time, end: Option<Time>) {
    end == None || now < end.value
  }

  // ---- what later reads answer ----

  /** Every read of a holding that was not replaced tells of its deposit, until that is over. */
  lemma {:induction false} ReadsTell(ops: seq<TimedOp>, p: ProviderId, i: nat, k: nat, d: Deposit)
    requires InOrder(ops) && i < k < |ops| && ops[k].op.provider == p && Undisturbed(ops, p, i, k)
    requires p in History(ops[..i + 1]) && History(ops[..i + 1])[p].deposit == d
    ensures var live, op, reply := Before(ops[k].now, d.expiresAt), ops[k].op, Replayed(ops).replies[k];
      && (op.HasCredentials? ==> reply == Flag(live))
      && (op.KindOf? ==> reply == Kind(if live then Some(if d.credential.ApiKey? then ApiKeyKind else BrowserSessionKind) else None))
      && (op.WithApiKey? ==> reply == Opened(if live && d.credential.ApiKey? then Some(d.credential) else None))
      && (op.WithBrowserSession? ==> reply == Opened(if live && d.credential.BrowserSession? then Some(d.credential) else None))
      && (op.MetadataOf? ==> reply.Metadata? && (reply.metadata.Some? <==> live))
      && (op.MetadataOf? && live ==> reply.metadata.value.createdAt == d.createdAt && reply.metadata.value.expiresAt == d.expiresAt)
      && (op.Revoke? && live ==> reply == Cleared(true))
  {
    hide Asked, Replayed, History, InOrder;
    UndisturbedKeeps(ops, p, i, k);
    DepositKept(ops, p, i + 1, k);
    ReplyIsEager(ops, k);
  }

  /** A key stored without a lifetime is found and handed out by every later read, at any time, and no session is. */
  lemma {:induction false} KeyStays(ops: seq<TimedOp>, p: ProviderId, i: nat, k: nat, key: string)
    requires InOrder(ops) && i < k < |ops| && ops[k].op.provider == p && Undisturbed(ops, p, i, k)
    requires key != "" && (ops[i].op == SetApiKey(p, key) || ops[i].op == RotateApiKey(p, key, None))
    ensures var op, reply := ops[k].op, Replayed(ops).replies[k];
      && (op.HasCredentials? ==> reply == Flag(true))
      && (op.KindOf? ==> reply == Kind(Some(ApiKeyKind)))
      && (op.WithApiKey? ==> reply == Opened(Some(ApiKey(key))))
      && (op.WithBrowserSession? ==> reply == Opened(None))
      && (op.MetadataOf? ==> reply.Metadata? && reply.metadata.Some? && reply.metadata.value.createdAt == ops[i].now && reply.metadata.value.expiresAt == None)
      && (op.Revoke? ==> reply == Cleared(true))
  {
    assert ops[..i + 1][..i] == ops[..i];
    assert History(ops[..i + 1]) == Eager(History(ops[..i]), ops[i]);
    hide History, Replayed, InOrder, Undisturbed;
    ReadsTell(ops, p, i, k, Deposit(ApiKey(key), None, ops[i].now));
  }

  /** A key stored with a lifetime is found and handed out by every later read before its end, and by none at or after it. */
  lemma {:induction false} KeyEnds(ops: seq<TimedOp>, p: ProviderId, i: nat, k: nat, key: string, ttl: nat)
    requires InOrder(ops) && i < k < |ops| && ops[k].op.provider == p && Undisturbed(ops, p, i, k) && Stores(ops[i])
    requires ops[i].op == SetApiKeyWithTtl(p, key, ttl) || ops[i].op == RotateApiKey(p, key, Some(ttl))
    ensures var live, op, reply := ops[k].now < ops[i].now + ttl, ops[k].op, Replayed(ops).replies[k];
      && (op.HasCredentials? ==> reply == Flag(live))
      && (op.KindOf? ==> reply == Kind(if live then Some(ApiKeyKind) else None))
      && (op.WithApiKey? ==> reply == Opened(if live then Some(ApiKey(key)) else None))
      && (op.WithBrowserSession? ==> reply == Opened(None))
      && (op.MetadataOf? ==> reply.Metadata? && (reply.metadata.Some? <==> live))
      && (op.MetadataOf? && live ==> reply.metadata.value.createdAt == ops[i].later && reply.metadata.value.expiresAt == Some(ops[i].now + ttl))
      && (op.Revoke? && live ==> reply == Cleared(true))
  {
    assert ops[..i + 1][..i] == ops[..i];
    assert History(ops[..i + 1]) == Eager(History(ops[..i]), ops[i]);
    hide History, Replayed, InOrder, Undisturbed;
    ReadsTell(ops, p, i, k, Deposit(ApiKey(key), Some(ops[i].now + ttl), ops[i].later));
  }

  /** A browser session is found and handed out, with its token, by every later read before its expiry if it has one; no key is. */
  lemma {:induction false} SessionEnds(ops: seq<TimedOp>, p: ProviderId, i: nat, k: nat, token: string, end: Option<Time>)
    requires InOrder(ops) && i < k < |ops| && ops[k].op.provider == p && Undisturbed(ops, p, i, k)
    requires token != "" && ops[i].op == SetBrowserSession(p, token, end)
    ensures var live, op, reply := end == None || ops[k].now < end.value, ops[k].op, Replayed(ops).replies[k];
      && (op.HasCredentials? ==> reply == Flag(live))
      && (op.KindOf? ==> reply == Kind(if live then Some(BrowserSessionKind) else None))
      && (op.WithApiKey? ==> reply == Opened(None))
      && (op.WithBrowserSession? ==> reply == Opened(if live then Some(BrowserSession(token, end)) else None))
      && (op.MetadataOf? ==> reply.Metadata? && (reply.metadata.Some? <==> live))
      && (op.MetadataOf? && live ==> reply.metadata.value.createdAt == ops[i].now && reply.metadata.value.expiresAt == end)
      && (op.Revoke? && live ==> reply == Cleared(true))
  {
    assert ops[..i + 1][..i] == ops[..i];
    assert History(ops[..i + 1]) == Eager(History(ops[..i]), ops[i]);
    hide History, Replayed, InOrder, Undisturbed;
    ReadsTell(ops, p, i, k, Deposit(BrowserSession(token, end), end, ops[i].now));
  }

  /** Before anything is stored, and after a revocation, every read finds nothing. */
  lemma {:induction false} NothingFound(ops: seq<TimedOp>, p: ProviderId, i: nat, k: nat)
    requires InOrder(ops) && i <= k < |ops| && ops[k].op.provider == p
    requires i == 0 || ops[i - 1].op == Revoke(p)
    requires forall j :: i <= j < k && ops[j].op.provider == p ==> !Stores(ops[j])
    ensures var op, reply := ops[k].op, Replayed(ops).replies[k];
      && (op.HasCredentials? ==> reply == Flag(false))
      && (op.KindOf? ==> reply == Kind(None))
      && (op.WithApiKey? || op.WithBrowserSession? ==> reply == Opened(None))
      && (op.MetadataOf? ==> reply == Metadata(None))
      && (op.Revoke? ==> reply == Cleared(false))
  {
    NothingHeld(ops, p, i, k);
    hide Asked, Replayed, History, InOrder;
    ReplyIsEager(ops, k);
  }

  lemma {:induction false} NothingHeld(ops: seq<TimedOp>, p: ProviderId, i: nat, k: nat)
    requires i <= k <= |ops|
    requires i == 0 || ops[i - 1].op == Revoke(p)
    requires forall j :: i <= j < k && ops[j].op.provider == p ==> !Stores(ops[j])
    ensures p !in History(ops[..k])
    decreases k
  {
    if k > 0 {
      assert ops[..k][..k - 1] == ops[..k - 1];
      ReplacesIff(ops[k - 1], p);
      StoringAsks(ops[k - 1]);
      if i < k {
        NothingHeld(ops, p, i, k - 1);
      }
      hide Stores, Asked, Expired;
    }
  }

  // ---- what a storing operation leaves ----

  /** The time an entry bears: that of the operation, or the later one at which a key with a lifetime is entered. */
  function EntryTime(t: TimedOp): Time {
    if t.op.SetApiKeyWithTtl? || (t.op.RotateApiKey? && t.op.lifetime.Some?) then t.later else t.now
  }

  /** When a stored credential ends: after its lifetime, when the session does, or never. */
  function EntryEnd(t: TimedOp): Option<Time>
    requires Stores(t)
  {
    match t.op
    case SetApiKeyWithTtl(_, _, ttl) => Some(t.now + ttl)
    case RotateApiKey(_, _, Some(ttl)) => Some(t.now + ttl)
    case SetBrowserSession(_, _, end) => end
    case _ => None
  }

  /**
   A storing operation, after any history and at whatever times: its entry is new and unused, and is rotated, at the
   time of the entry, exactly when one was still there; the log says which; other entries stay.
   */
  lemma {:induction false} StoringTold(ops: seq<TimedOp>, i: nat)
    requires i < |ops| && Stores(ops[i])
    ensures Replayed(ops).replies[i] == Stored
    ensures var p, before, after := ops[i].op.provider, Replayed(ops[..i]), Replayed(ops[..i + 1]);
      && p in after.entries
      && after.entries[p].credential == (if ops[i].op.SetBrowserSession? then BrowserSession(ops[i].op.token, ops[i].op.expiresAt) else ApiKey(ops[i].op.key))
      && after.entries[p].metadata.expiresAt == EntryEnd(ops[i])
      && after.entries[p].metadata.createdAt == EntryTime(ops[i])
      && after.entries[p].metadata.lastUsedAt == None && after.entries[p].metadata.accessCount == 0
      && after.entries[p].metadata.lastRotatedAt == (if p in before.entries then Some(EntryTime(ops[i])) else None)
      && after.events == before.events + [Event(p, Some(if ops[i].op.SetBrowserSession? then BrowserSessionKind else ApiKeyKind),
                                                if p in before.entries then WasRotated else WasSet)]
      && forall q :: q != p ==> (q in after.entries <==> q in before.entries) && (q in before.entries ==> after.entries[q] == before.entries[q])
  {
    ReplyKept(ops, i);
    assert ops[..i + 1][..i] == ops[..i];
    assert Replayed(ops[..i + 1]) == Run(Lazy(Replayed(ops[..i]).entries, ops[i]).entries, Replayed(ops[..i]).replies + [Lazy(Replayed(ops[..i]).entries, ops[i]).reply],
                                         Replayed(ops[..i]).events + Lazy(Replayed(ops[..i]).entries, ops[i]).events);
    hide Replayed;
  }

  /** A refused one says why, the lifetime before the secret, and changes nothing. */
  lemma {:induction false} RefusalTold(ops: seq<TimedOp>, i: nat)
    requires i < |ops| && !Stores(ops[i])
    requires ops[i].op.SetApiKey? || ops[i].op.SetApiKeyWithTtl? || ops[i].op.RotateApiKey? || ops[i].op.SetBrowserSession?
    ensures var op := ops[i].op;
      var lifetime := if op.SetApiKeyWithTtl? then Some(op.ttl) else if op.RotateApiKey? then op.lifetime else None;
      Replayed(ops).replies[i] == Rejected(
        if op.SetBrowserSession? then EmptyToken
        else if lifetime == Some(0) then ZeroTtl
        else if lifetime.Some? && ops[i].now + lifetime.value >= END_OF_TIME then TtlOutOfRange
        else EmptyKey)
    ensures Replayed(ops[..i + 1]).entries == Replayed(ops[..i]).entries && Replayed(ops[..i + 1]).events == Replayed(ops[..i]).events
  {
    ReplyKept(ops, i);
    assert ops[..i + 1][..i] == ops[..i];
    assert Replayed(ops[..i]).events + [] == Replayed(ops[..i]).events;
    assert Replayed(ops[..i + 1]).entries == Lazy(Replayed(ops[..i]).entries, ops[i]).entries;
    assert Replayed(ops[..i + 1]).events == Replayed(ops[..i]).events + Lazy(Replayed(ops[..i]).entries, ops[i]).events;
    hide Replayed;
  }

  /** A revocation, at whatever time: it takes the entry out and says, and logs with its kind, whether one was there. */
  lemma {:induction false} RevocationTold(ops: seq<TimedOp>, i: nat, p: ProviderId)
    requires i < |ops| && ops[i].op == Revoke(p)
    ensures var before, after := Replayed(ops[..i]), Replayed(ops[..i + 1]);
      && Replayed(ops).replies[i] == Cleared(p in before.entries)
      && after.entries == before.entries - {p}
      && (p !in before.entries ==> after.events == before.events)
      && (p in before.entries ==>
            after.events == before.events + [Event(p, Some(if before.entries[p].credential.ApiKey? then ApiKeyKind else BrowserSessionKind), WasCleared)])
  {
    ReplyKept(ops, i);
    assert ops[..i + 1][..i] == ops[..i];
    assert Replayed(ops[..i]).events + [] == Replayed(ops[..i]).events;
    assert Replayed(ops[..i + 1]).entries == Lazy(Replayed(ops[..i]).entries, ops[i]).entries;
    assert Replayed(ops[..i + 1]).events == Replayed(ops[..i]).events + Lazy(Replayed(ops[..i]).entries, ops[i]).events;
    hide Replayed;
  }

  // ---- what metadata tells later ----

  /** The operation handed out a credential of the provider. */
  predicate HandedOut(t: TimedOp, reply: Reply, p: ProviderId) {
    t.op.provider == p && reply.Opened? && reply.credential.Some?
  }

  ghost predicate NoneHandedOut(ops: seq<TimedOp>, p: ProviderId, i: nat, k: nat)
    requires k <= |ops|
  {
    forall j :: i < j < k ==> !HandedOut(ops[j], Replayed(ops).replies[j], p)
  }

  lemma EntryStep(l: Entries, t: TimedOp, p: ProviderId)
    requires !(t.op.provider == p && (Stores(t) || t.op.Revoke?)) && p in Lazy(l, t).entries
    ensures p in l
    ensures var before, after := l[p], Lazy(l, t).entries[p];
      && after.credential == before.credential && after.metadata.createdAt == before.metadata.createdAt
      && after.metadata.expiresAt == before.metadata.expiresAt && after.metadata.lastRotatedAt == before.metadata.lastRotatedAt
      && after.metadata.lastUsedAt == (if HandedOut(t, Lazy(l, t).reply, p) then Some(t.now) else before.metadata.lastUsedAt)
  {
    ReplacesIff(t, p);
    StoringAsks(t);
    hide Asked, Expired;
  }

  /** The entry after `k` operations came from the one before by a step that did not replace it. */
  lemma {:induction false} EntryLater(ops: seq<TimedOp>, p: ProviderId, i: nat, k: nat)
    requires i + 1 < k <= |ops| && Undisturbed(ops, p, i, k) && p in Replayed(ops[..k]).entries
    ensures p in Replayed(ops[..k - 1]).entries && Undisturbed(ops, p, i, k - 1)
    ensures var before, after := Replayed(ops[..k - 1]).entries[p], Replayed(ops[..k]).entries[p];
      && after.credential == before.credential && after.metadata.lastRotatedAt == before.metadata.lastRotatedAt
      && after.metadata.lastUsedAt == (if HandedOut(ops[k - 1], Replayed(ops).replies[k - 1], p) then Some(ops[k - 1].now) else before.metadata.lastUsedAt)
  {
    hide Lazy, HandedOut, Stores;
    assert ops[..k][..k - 1] == ops[..k - 1];
    ReplyKept(ops, k - 1);
    EntryStep(Replayed(ops[..k - 1]).entries, ops[k - 1], p);
  }

  /** While an entry is there and not replaced, its credential and the time of its rotation stay. */
  lemma {:induction false} EntryKept(ops: seq<TimedOp>, p: ProviderId, i: nat, k: nat)
    requires i < k <= |ops| && Undisturbed(ops, p, i, k) && p in Replayed(ops[..k]).entries
    ensures p in Replayed(ops[..i + 1]).entries
    ensures var first, last := Replayed(ops[..i + 1]).entries[p], Replayed(ops[..k]).entries[p];
      last.credential == first.credential && last.metadata.lastRotatedAt == first.metadata.lastRotatedAt
    decreases k
  {
    if i + 1 < k {
      hide *;
      EntryLater(ops, p, i, k);
      EntryKept(ops, p, i, k - 1);
    }
  }

  lemma NoneBefore(ops: seq<TimedOp>, p: ProviderId, j: nat, k: nat)
    requires j + 1 < k <= |ops| && NoneHandedOut(ops, p, j, k)
    ensures NoneHandedOut(ops, p, j, k - 1) && !HandedOut(ops[k - 1], Replayed(ops).replies[k - 1], p)
  {
    hide HandedOut, Replayed;
  }

  /** Its last use is the last time it was handed out; without any, it stays as it was. */
  lemma {:induction false} LastUse(ops: seq<TimedOp>, p: ProviderId, i: nat, k: nat, j: nat)
    requires i <= j < k <= |ops| && Undisturbed(ops, p, i, k) && p in Replayed(ops[..k]).entries
    requires NoneHandedOut(ops, p, j, k) && (i < j ==> HandedOut(ops[j], Replayed(ops).replies[j], p))
    ensures p in Replayed(ops[..i + 1]).entries
    ensures Replayed(ops[..k]).entries[p].metadata.lastUsedAt == if i < j then Some(ops[j].now) else Replayed(ops[..i + 1]).entries[p].metadata.lastUsedAt
    decreases k
  {
    hide *;
    if i + 1 < k {
      EntryLater(ops, p, i, k);
      EntryKept(ops, p, i, k - 1);
      if j < k - 1 {
        NoneBefore(ops, p, j, k);
        LastUse(ops, p, i, k - 1, j);
      }
    }
  }

  /**
   The metadata read of a credential that a storing operation left and nothing replaced since: rotated as it was stored,
   and used last when it was last handed out (`j`), or never when it was not (`j == i`).
   */
  lemma {:induction false} MetadataTold(ops: seq<TimedOp>, p: ProviderId, i: nat, k: nat, j: nat, m: CredentialMetadata)
    requires i < k < |ops| && ops[i].op.provider == p && Stores(ops[i]) && Undisturbed(ops, p, i, k)
    requires ops[k].op == MetadataOf(p) && Replayed(ops).replies[k] == Metadata(Some(m))
    requires i <= j < k && NoneHandedOut(ops, p, j, k) && (i < j ==> HandedOut(ops[j], Replayed(ops).replies[j], p))
    ensures m.lastRotatedAt == if p in Replayed(ops[..i]).entries then Some(EntryTime(ops[i])) else None
    ensures m.lastUsedAt == if i < j then Some(ops[j].now) else None
  {
    MetadataReply(ops, p, k, m);
    hide *;
    StoringTold(ops, i);
    EntryKept(ops, p, i, k);
    LastUse(ops, p, i, k, j);
  }

  lemma {:induction false} MetadataReply(ops: seq<TimedOp>, p: ProviderId, k: nat, m: CredentialMetadata)
    requires k < |ops| && ops[k].op == MetadataOf(p) && Replayed(ops).replies[k] == Metadata(Some(m))
    ensures p in Replayed(ops[..k]).entries && Replayed(ops[..k]).entries[p].metadata == m
  {
    ReplyKept(ops, k);
    hide Replayed;
  }
}
