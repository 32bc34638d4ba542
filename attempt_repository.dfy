/** The in-memory attempt store: a hash map from session id to attempt, with
    at most one attempt per session. */
module Repository {
  import opened Lang
  import opened Attempts

  /** The contents of a store. A Java `HashMap` accepts the null key, so a
      session id of `None` can be a key too. */
  type AttemptMap = map<SessionId, SignInAttempt>

  /** What `getCode(sessionId)` answers for store contents `m`: null for a
      null session id, otherwise the stored attempt or null. */
  function Lookup(m: AttemptMap, sessionId: SessionId): (r: Option<SignInAttempt>)
    ensures sessionId.None? ==> r.None?
    ensures sessionId.Some? && sessionId in m ==> r == Some(m[sessionId])
    ensures sessionId !in m ==> r.None?
  {
    if sessionId.None? then None
    else if sessionId in m then Some(m[sessionId])
    else None
  }

  class InMemoryTwoFactorAuthCodeRepository {
    var signInAttempts: AttemptMap

    constructor ()
      ensures signInAttempts == map[]
    {
      signInAttempts := map[];
    }

    /** `insertCode`: store the attempt under its session id, replacing any
        attempt already stored for that session. */
    method InsertCode(code: SignInAttempt)
      modifies this
      ensures signInAttempts == old(signInAttempts)[code.sessionId := code]
    {
      signInAttempts := signInAttempts[code.sessionId := code];
    }

    method GetCode(sessionId: SessionId) returns (r: Option<SignInAttempt>)
      ensures r == Lookup(signInAttempts, sessionId)
      ensures r.Some? ==> r.value in signInAttempts.Values && sessionId.Some?
    {
      if sessionId.None? {
        return None;
      }
      if sessionId in signInAttempts {
        r := Some(signInAttempts[sessionId]);
      } else {
        r := None;
      }
    }

    /** `removeCode(String)`: drop the session's attempt; absent keys are ignored. */
    method RemoveCode(sessionId: SessionId)
      modifies this
      ensures signInAttempts == old(signInAttempts) - {sessionId}
    {
      signInAttempts := signInAttempts - {sessionId};
    }

    /** `removeCode(SignInAttempt)`: the same as removing by the attempt's session id. */
    method RemoveAttempt(code: SignInAttempt)
      modifies this
      ensures signInAttempts == old(signInAttempts) - {code.sessionId}
    {
      RemoveCode(code.sessionId);
    }
  }

  /** After inserting `a`, looking up its (non-null) session gives `a`. */
  lemma GetAfterInsert(m: AttemptMap, a: SignInAttempt)
    requires a.sessionId.Some?
    ensures Lookup(m[a.sessionId := a], a.sessionId) == Some(a)
  {
  }

  /** Inserting or removing for one session leaves every other session's lookup unchanged. */
  lemma OtherSessionsUnchanged(m: AttemptMap, a: SignInAttempt, s: SessionId, other: SessionId)
    requires other != a.sessionId && other != s
    ensures Lookup(m[a.sessionId := a], other) == Lookup(m, other)
    ensures Lookup(m - {s}, other) == Lookup(m, other)
  {
  }

  /** Removal leaves nothing behind, and removing twice is the same as once. */
  lemma RemoveIsIdempotent(m: AttemptMap, s: SessionId)
    ensures Lookup(m - {s}, s).None?
    ensures (m - {s}) - {s} == m - {s}
  {
  }

  /** A second insert for the same session replaces the first: one attempt per session. */
  lemma InsertReplaces(m: AttemptMap, a: SignInAttempt, b: SignInAttempt)
    requires a.sessionId == b.sessionId
    ensures m[a.sessionId := a][b.sessionId := b] == m[b.sessionId := b]
  {
  }
}
