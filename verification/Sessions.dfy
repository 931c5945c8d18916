// Sliding sessions and their revocation
// (backend/src/auth/session-revocation.service.ts,
//  backend/src/auth/sliding-session.interceptor.ts,
//  backend/src/users/users.service.ts). Token expiry and issue time are in
// seconds (sections 4.1.4 and 4.1.6 of RFC 7519), everything else in ms.
module Sessions {
  import opened Prelude

  const AUTH_CHECK_TIMEOUT_MS := 3000
  const REVOCATION_MARGIN_MS := 60_000
  const FALLBACK_TTL_MS := 15 * 60 * 1000

  type User = string
  type Sid = string

  // "" and 0 stand for a missing claim.
  datatype Token = Token(sub: User, sid: Sid, iat: nat, exp: nat)

  datatype Meta = Meta(passwordChangedAt: Option<nat>, isActive: bool)

  // What the two lookups of a check yield in time, if they do.
  datatype Lookup = Unreachable | Found(meta: Option<Meta>, revoked: bool)

  datatype Verdict = Accepted | Unauthorized | Unavailable

  function TtlMs(t: Token): int {
    if t.exp != 0 && t.iat != 0 then (t.exp - t.iat) * 1000 else FALLBACK_TTL_MS
  }

  predicate BeforePasswordChange(t: Token, meta: Meta) {
    meta.passwordChangedAt.Some? && t.iat != 0 && t.iat < meta.passwordChangedAt.value / 1000
  }

  // assertSessionValid
  function Judge(t: Token, found: Lookup): Verdict {
    if t.sid == "" then Unauthorized
    else match found
      case Unreachable => Unavailable
      case Found(None, _) => Unauthorized
      case Found(Some(meta), revoked) =>
        if !meta.isActive || revoked || BeforePasswordChange(t, meta) then Unauthorized else Accepted
  }

  lemma AcceptsOnlyProven(t: Token, found: Lookup)
    ensures Judge(t, found) == Accepted <==>
              && t.sid != ""
              && found.Found? && found.meta.Some? && found.meta.value.isActive
              && !found.revoked && !BeforePasswordChange(t, found.meta.value)
  {
    if found.Found? && found.meta.Some? {
      assert Judge(t, Found(Some(found.meta.value), found.revoked)) == Judge(t, found);
    }
  }

  // An existing revocation row is kept as it is.
  function InsertOrIgnore(rows: map<Sid, int>, sid: Sid, expiresAt: int): map<Sid, int> {
    if sid in rows then rows else rows[sid := expiresAt]
  }

  function WithoutExpired(rows: map<Sid, int>, cutoff: int): map<Sid, int> {
    map sid | sid in rows && rows[sid] >= cutoff :: rows[sid]
  }

  // -------- the service --------

  class SessionRevocationService {
    var revoked: map<Sid, int>
    var listeners: seq<nat>
    var notified: seq<(nat, Sid)>   // calls made to listeners

    constructor ()
      ensures revoked == map[] && listeners == [] && notified == []
    {
      revoked, listeners, notified := map[], [], [];
    }

    method OnRevoked(listener: nat)
      modifies this`listeners
      ensures listeners == if listener in old(listeners) then old(listeners) else old(listeners) + [listener]
    {
      if listener !in listeners {
        listeners := listeners + [listener];
      }
    }

    // The function that onRevoked returns.
    method Unsubscribe(listener: nat)
      modifies this`listeners
      ensures listener !in listeners && |listeners| <= |old(listeners)|
      ensures forall x | x != listener :: x in listeners <==> x in old(listeners)
      ensures listener !in old(listeners) ==> listeners == old(listeners)
    {
      var rest := [];
      for i := 0 to |listeners|
        invariant listener !in rest && |rest| <= i && listeners == old(listeners)
        invariant forall x | x != listener :: x in rest <==> x in listeners[..i]
        invariant listener !in listeners[..i] ==> rest == listeners[..i]
      {
        assert listeners[..i + 1] == listeners[..i] + [listeners[i]];
        if listeners[i] != listener {
          rest := rest + [listeners[i]];
        }
      }
      assert listeners[..|listeners|] == listeners;
      listeners := rest;
    }

    // Every listener is called once, in order, whether or not one throws; the
    // cleanup uses the time read at the start and may fail on its own.
    method Revoke(t: Token, now: int, insertFails: bool, throwing: set<nat>, cleanupFails: bool)
      returns (recorded: bool, failures: nat)
      modifies this`revoked, this`notified
      ensures t.sid == "" ==> recorded && revoked == old(revoked) && notified == old(notified)
      ensures t.sid != "" ==> (recorded <==> !insertFails)
      ensures !recorded ==> revoked == old(revoked) && notified == old(notified)
      ensures recorded && t.sid != "" ==>
                && var inserted := InsertOrIgnore(old(revoked), t.sid, now + TtlMs(t) + REVOCATION_MARGIN_MS);
                && revoked == (if cleanupFails then inserted else WithoutExpired(inserted, now))
                && |notified| == |old(notified)| + |listeners|
                && notified[..|old(notified)|] == old(notified)
                && forall i | 0 <= i < |listeners| :: notified[|old(notified)| + i] == (listeners[i], t.sid)
      ensures failures <= |listeners|
      // in words: the row lasts for the token's lifetime, or a quarter of an
      // hour, and a minute more; an older row of the session is kept; and only
      // rows past their expiry are cleaned up
      ensures recorded && t.sid != "" ==>
                var lifetime := if t.exp != 0 && t.iat != 0 then (t.exp - t.iat) * 1000 else 900_000;
                var expiresAt := if t.sid in old(revoked) then old(revoked)[t.sid] else now + lifetime + 60_000;
                && (forall sid :: sid in revoked <==>
                      && (sid in old(revoked) || sid == t.sid)
                      && (cleanupFails || (if sid == t.sid then expiresAt else old(revoked)[sid]) >= now))
                && (forall sid | sid in revoked ::
                      revoked[sid] == if sid == t.sid then expiresAt else old(revoked)[sid])
    {
      recorded, failures := true, 0;
      if t.sid == "" {
        return;
      }
      var ttlMs := if t.exp != 0 && t.iat != 0 then (t.exp - t.iat) * 1000 else 15 * 60 * 1000;
      if insertFails {
        return false, 0;
      }
      if t.sid !in revoked {
        revoked := revoked[t.sid := now + ttlMs + REVOCATION_MARGIN_MS];
      }
      ghost var inserted := revoked;
      for i := 0 to |listeners|
        invariant revoked == inserted
        invariant |notified| == |old(notified)| + i && failures <= i
        invariant notified[..|old(notified)|] == old(notified)
        invariant forall k | 0 <= k < i :: notified[|old(notified)| + k] == (listeners[k], t.sid)
      {
        notified := notified + [(listeners[i], t.sid)];
        if listeners[i] in throwing {
          failures := failures + 1;
        }
      }
      if !cleanupFails {
        revoked := map sid | sid in revoked && revoked[sid] >= now :: revoked[sid];
      }
    }

    method AssertSessionValid(t: Token, meta: Option<Meta>, inTime: bool) returns (v: Verdict)
      ensures v == Judge(t, if inTime then Found(meta, t.sid in revoked) else Unreachable)
      // fails closed: accepted only with both lookups answered, the account
      // active, no revocation row, and the token not older than the password
      ensures v == Accepted <==>
                && t.sid != "" && inTime && meta.Some? && meta.value.isActive
                && t.sid !in revoked
                && !(meta.value.passwordChangedAt.Some? && t.iat != 0
                     && t.iat < meta.value.passwordChangedAt.value / 1000)
      ensures v == Unavailable <==> t.sid != "" && !inTime
    {
      if t.sid == "" {
        return Unauthorized;
      }
      if !inTime {
        return Unavailable;
      }
      if meta.None? || !meta.value.isActive {
        return Unauthorized;
      }
      if t.sid in revoked {
        return Unauthorized;
      }
      if meta.value.passwordChangedAt.Some? && t.iat != 0 {
        var changedAtSeconds := meta.value.passwordChangedAt.value / 1000;
        if t.iat < changedAtSeconds {
          return Unauthorized;
        }
      }
      return Accepted;
    }
  }
}
