/** The credential manager of fprovider/src/credentials.rs. The times it would read from the clock are parameters. */
module Credentials {
  import opened Wrappers
  import opened CredentialModel

  class SecureCredentialManager {
    var credentials: Entries
    /** What an attached observer has been told. */
    var events: seq<Event>

    constructor ()
      ensures credentials == map[] && events == []
    {
      credentials, events := map[], [];
    }

    method Emit(event: Event)
      modifies this`events
      ensures events == old(events) + [event]
    {
      events := events + [event];
    }

    method RemoveIfExpired(p: ProviderId, now: Time) returns (expired: bool)
      modifies this`credentials
      ensures credentials == Sweep(old(credentials), p, now)
      ensures expired <==> p in old(credentials) && p !in credentials
    {
      expired := p in credentials && Expired(credentials[p].metadata.expiresAt, now);
      if expired {
        credentials := credentials - {p};
      }
    }

    method InsertCredential(p: ProviderId, credential: Credential, expiresAt: Option<Time>, now: Time) returns (action: Action)
      modifies this`credentials
      ensures var out := Insert(old(credentials), p, Deposit(credential, expiresAt, now));
        credentials == out.entries && [Event(p, Some(credential.Kind()), action)] == out.events
    {
      action := if p in credentials then WasRotated else WasSet;
      var metadata := if action == WasSet then CredentialModel.CredentialMetadata(now, expiresAt, None, None, 0)
                      else CredentialModel.CredentialMetadata(now, expiresAt, None, Some(now), 0);
      credentials := credentials[p := CredentialEntry(credential, metadata)];
    }

    method SetApiKeyWithExpiry(p: ProviderId, key: string, expiresAt: Option<Time>, now: Time) returns (e: Option<CredentialError>)
      modifies this
      ensures e == if key == "" then Some(EmptyKey) else None
      ensures e.Some? ==> credentials == old(credentials) && events == old(events)
      ensures e == None ==> var out := Insert(old(credentials), p, Deposit(ApiKey(key), expiresAt, now));
        credentials == out.entries && events == old(events) + out.events
    {
      if key == "" {
        return Some(EmptyKey);
      }
      var action := InsertCredential(p, ApiKey(key), expiresAt, now);
      Emit(Event(p, Some(ApiKeyKind), action));
      e := None;
    }

    method SetApiKey(p: ProviderId, key: string, now: Time) returns (e: Option<CredentialError>)
      modifies this
      ensures Did(old(credentials), old(events), TimedOp(Op.SetApiKey(p, key), now, now), credentials, events, StoreReply(e))
    {
      e := SetApiKeyWithExpiry(p, key, None, now);
      assert old(events) + [] == old(events);
    }

    /** The expiry counts from `now`; the entry is made at `later`. */
    method SetApiKeyWithTtl(p: ProviderId, key: string, ttl: nat, now: Time, later: Time) returns (e: Option<CredentialError>)
      modifies this
      ensures e == None <==> ttl > 0 && now + ttl < 0x8000_0000_0000_0000 * 1_000_000_000 && key != ""
      ensures e.Some? ==> credentials == old(credentials) && events == old(events)
      ensures Did(old(credentials), old(events), TimedOp(Op.SetApiKeyWithTtl(p, key, ttl), now, later), credentials, events, StoreReply(e))
    {
      assert old(events) + [] == old(events);
      if ttl == 0 {
        return Some(ZeroTtl);
      }
      if now + ttl >= 0x8000_0000_0000_0000 * 1_000_000_000 {
        return Some(TtlOutOfRange);
      }
      e := SetApiKeyWithExpiry(p, key, Some(now + ttl), later);
    }

    method RotateApiKey(p: ProviderId, key: string, ttl: Option<nat>, now: Time, later: Time) returns (e: Option<CredentialError>)
      modifies this
      ensures Did(old(credentials), old(events), TimedOp(Op.RotateApiKey(p, key, ttl), now, later), credentials, events, StoreReply(e))
    {
      match ttl {
        case Some(lifetime) => e := SetApiKeyWithTtl(p, key, lifetime, now, later);
        case None => e := SetApiKey(p, key, now);
      }
    }

    method SetBrowserSession(p: ProviderId, token: string, expiresAt: Option<Time>, now: Time) returns (e: Option<CredentialError>)
      modifies this
      ensures e == if token == "" then Some(EmptyToken) else None
      ensures e.Some? ==> credentials == old(credentials) && events == old(events)
      ensures Did(old(credentials), old(events), TimedOp(Op.SetBrowserSession(p, token, expiresAt), now, now), credentials, events, StoreReply(e))
    {
      if token == "" {
        assert old(events) + [] == old(events);
        return Some(EmptyToken);
      }
      var action := InsertCredential(p, BrowserSession(token, expiresAt), expiresAt, now);
      Emit(Event(p, Some(BrowserSessionKind), action));
      e := None;
    }

    method HasCredentials(p: ProviderId, now: Time) returns (r: bool)
      modifies this`credentials
      ensures r <==> IsLive(old(credentials), p, now)
      ensures Did(old(credentials), old(events), TimedOp(Op.HasCredentials(p), now, now), credentials, events, Flag(r))
    {
      assert events + [] == events;
      var expired := RemoveIfExpired(p, now);
      if expired {
        return false;
      }
      r := p in credentials;
    }

    method CredentialKind(p: ProviderId, now: Time) returns (r: Option<CredentialKind>)
      modifies this`credentials
      ensures r == if IsLive(old(credentials), p, now) then Some(old(credentials)[p].credential.Kind()) else None
      ensures Did(old(credentials), old(events), TimedOp(KindOf(p), now, now), credentials, events, Kind(r))
    {
      assert events + [] == events;
      var expired := RemoveIfExpired(p, now);
      if expired {
        return None;
      }
      r := if p in credentials then Some(credentials[p].credential.Kind()) else None;
    }

    method CredentialMetadata(p: ProviderId, now: Time) returns (r: Option<CredentialMetadata>)
      modifies this`credentials
      ensures r == if IsLive(old(credentials), p, now) then Some(old(credentials)[p].metadata) else None
      ensures r.Some? ==> credentials == old(credentials)
      ensures Did(old(credentials), old(events), TimedOp(MetadataOf(p), now, now), credentials, events, Metadata(r))
    {
      assert events + [] == events;
      var expired := RemoveIfExpired(p, now);
      if expired {
        return None;
      }
      r := if p in credentials then Some(credentials[p].metadata) else None;
    }

    method WithApiKey(p: ProviderId, now: Time) returns (r: Option<Credential>)
      modifies this
      ensures r.Some? <==> IsLive(old(credentials), p, now) && old(credentials)[p].credential.ApiKey?
      ensures r.Some? ==> r.value == old(credentials)[p].credential && p in credentials && credentials[p].metadata.lastUsedAt == Some(now)
      ensures Did(old(credentials), old(events), TimedOp(Op.WithApiKey(p), now, now), credentials, events, Opened(r))
    {
      var expired := RemoveIfExpired(p, now);
      if expired {
        Emit(Event(p, Some(ApiKeyKind), AccessDenied));
        return None;
      }
      r := None;
      if p in credentials && credentials[p].credential.ApiKey? {
        var entry := credentials[p];
        credentials := credentials[p := entry.(metadata := entry.metadata.MarkUsed(now))];
        r := Some(entry.credential);
      }
      Emit(Event(p, Some(ApiKeyKind), if r.Some? then AccessGranted else AccessDenied));
    }

    method WithBrowserSession(p: ProviderId, now: Time) returns (r: Option<Credential>)
      modifies this
      ensures r.Some? <==> IsLive(old(credentials), p, now) && old(credentials)[p].credential.BrowserSession?
      ensures r.Some? ==> r.value == old(credentials)[p].credential && p in credentials && credentials[p].metadata.lastUsedAt == Some(now)
      ensures Did(old(credentials), old(events), TimedOp(Op.WithBrowserSession(p), now, now), credentials, events, Opened(r))
    {
      var expired := RemoveIfExpired(p, now);
      if expired {
        Emit(Event(p, Some(BrowserSessionKind), AccessDenied));
        return None;
      }
      r := None;
      if p in credentials && credentials[p].credential.BrowserSession? {
        var entry := credentials[p];
        credentials := credentials[p := entry.(metadata := entry.metadata.MarkUsed(now))];
        r := Some(entry.credential);
      }
      Emit(Event(p, Some(BrowserSessionKind), if r.Some? then AccessGranted else AccessDenied));
    }

    method Revoke(p: ProviderId) returns (had: bool)
      modifies this
      ensures had <==> p in old(credentials)
      ensures credentials == old(credentials) - {p}
      ensures forall now :: Did(old(credentials), old(events), TimedOp(Op.Revoke(p), now, now), credentials, events, Cleared(had))
    {
      assert events + [] == events;
      had := p in credentials;
      if had {
        var kind := credentials[p].credential.Kind();
        credentials := credentials - {p};
        Emit(Event(p, Some(kind), WasCleared));
      }
    }

    method Perform(t: TimedOp) returns (reply: Reply)
      modifies this
      ensures Did(old(credentials), old(events), t, credentials, events, reply)
    {
      var p := t.op.provider;
      match t.op {
        case SetApiKey(_, key) =>
          var e := SetApiKey(p, key, t.now);
          reply := StoreReply(e);
        case SetApiKeyWithTtl(_, key, ttl) =>
          var e := SetApiKeyWithTtl(p, key, ttl, t.now, t.later);
          reply := StoreReply(e);
        case RotateApiKey(_, key, ttl) =>
          var e := RotateApiKey(p, key, ttl, t.now, t.later);
          reply := StoreReply(e);
        case SetBrowserSession(_, token, expiresAt) =>
          var e := SetBrowserSession(p, token, expiresAt, t.now);
          reply := StoreReply(e);
        case HasCredentials(_) =>
          var flag := HasCredentials(p, t.now);
          reply := Flag(flag);
        case KindOf(_) =>
          var kind := CredentialKind(p, t.now);
          reply := Kind(kind);
        case MetadataOf(_) =>
          var metadata := CredentialMetadata(p, t.now);
          reply := Metadata(metadata);
        case WithApiKey(_) =>
          var credential := WithApiKey(p, t.now);
          reply := Opened(credential);
        case WithBrowserSession(_) =>
          var credential := WithBrowserSession(p, t.now);
          reply := Opened(credential);
        case Revoke(_) =>
          var had := Revoke(p);
          assert Did(old(credentials), old(events), TimedOp(Op.Revoke(p), t.now, t.now), credentials, events, Cleared(had));
          reply := Cleared(had);
      }
    }

    /** Any history on a new manager: every reply is what the eager reading calls for, and the counts match the log. */
    method Replay(ops: seq<TimedOp>) returns (replies: seq<Reply>)
      requires InOrder(ops) && credentials == map[] && events == []
      modifies this
      ensures Run(credentials, replies, events) == Replayed(ops)
      ensures forall i :: 0 <= i < |ops| ==> Answers(History(ops[..i]), ops[i], replies[i])
      ensures Audited(credentials, events)
    {
      hide Lazy, Answers, Audited, History;
      replies := [];
      for i := 0 to |ops|
        invariant Replayed(ops[..i]) == Run(credentials, replies, events)
      {
        var reply := Perform(ops[i]);
        replies := replies + [reply];
        assert ops[..i + 1][..i] == ops[..i];
      }
      assert ops[..|ops|] == ops;
      ReadsAreEager(ops);
      CountsMatchLog(ops);
    }
  }

  function StoreReply(e: Option<CredentialError>): Reply {
    if e.Some? then Rejected(e.value) else Stored
  }

  /** The operation took the manager from one state to another and answered with the reply. */
  ghost predicate Did(l: Entries, log: seq<Event>, t: TimedOp, later: Entries, longer: seq<Event>, reply: Reply) {
    var out := Lazy(l, t);
    later == out.entries && longer == log + out.events && reply == out.reply
  }
}
