/** The code service: generates codes, saves attempts stamped with the current
    instant, reads and removes them, and decides expiry. The clock is the
    `now` parameter (epoch milliseconds). */
module CodeService {
  import opened Lang
  import opened Attempts
  import opened Repository
  import opened CodeGeneration

  const DEFAULT_EXPIRATION_TIME_IN_MILLIS: int := 90000
  const DEFAULT_GENERATION_STRATEGY: GenerationStrategy := SixDigitAuthCodeGenerationStrategy

  /** An attempt is expired once strictly more than `window` milliseconds have
      passed since it was created: at exactly `time + window` it is still valid. */
  predicate Expired(a: SignInAttempt, window: int, now: int) {
    a.time + window < now
  }

  /** `isStepOneComplete` for store contents `m`: an attempt is stored for
      the session and it is not expired. The same expiry predicate decides
      the delivered-code check, so the two never disagree at one instant. */
  predicate StepOneComplete(m: AttemptMap, sessionId: SessionId, window: int, now: int) {
    match Lookup(m, sessionId)
    case None => false
    case Some(a) => !Expired(a, window, now)
  }

  class TwoFactorAuthCodeServiceImpl {
    var generationStrategy: GenerationStrategy
    var expirationTimeInMillis: int
    var repository: InMemoryTwoFactorAuthCodeRepository

    /** A null repository is ruled out by the parameter's (non-null) type. */
    constructor (repository: InMemoryTwoFactorAuthCodeRepository)
      ensures this.repository == repository
      ensures generationStrategy == DEFAULT_GENERATION_STRATEGY
      ensures expirationTimeInMillis == DEFAULT_EXPIRATION_TIME_IN_MILLIS
    {
      this.repository := repository;
      generationStrategy := DEFAULT_GENERATION_STRATEGY;
      expirationTimeInMillis := DEFAULT_EXPIRATION_TIME_IN_MILLIS;
    }

    /** `generateCode`: delegates to the configured strategy; the store is not touched. */
    method GenerateCode(random: seq<real>) returns (code: string)
      requires |random| >= CODE_LENGTH && AreDraws(random)
      ensures code == CodeOf(random[..CODE_LENGTH])
    {
      code := CodeGeneration.GenerateCode(generationStrategy, random);
    }

    /** `saveAttempt`: build an attempt from the request's session id, the
        code (null on the authenticator-app path), the user and `now`, store
        it, and return it. */
    method SaveAttempt(sessionId: SessionId, username: string, twoFactorCode: Option<string>, now: int)
      returns (attempt: SignInAttempt)
      modifies repository
      ensures attempt == SignInAttempt(sessionId, twoFactorCode, username, now)
      ensures repository.signInAttempts == old(repository.signInAttempts)[sessionId := attempt]
    {
      attempt := SignInAttempt(sessionId, twoFactorCode, username, now);
      repository.InsertCode(attempt);
    }

    method GetCode(sessionId: SessionId) returns (r: Option<SignInAttempt>)
      ensures r == Lookup(repository.signInAttempts, sessionId)
    {
      r := repository.GetCode(sessionId);
    }

    /** `cleanUp`: remove the session's attempt; harmless when there is none. */
    method CleanUp(sessionId: SessionId)
      modifies repository
      ensures repository.signInAttempts == old(repository.signInAttempts) - {sessionId}
    {
      repository.RemoveCode(sessionId);
    }

    method SetCodeRepository(repository: InMemoryTwoFactorAuthCodeRepository)
      modifies this
      ensures this.repository == repository
      ensures generationStrategy == old(generationStrategy) && expirationTimeInMillis == old(expirationTimeInMillis)
    {
      this.repository := repository;
    }

    method SetCodeGenerationStrategy(generationStrategy: GenerationStrategy)
      modifies this
      ensures this.generationStrategy == generationStrategy
      ensures repository == old(repository) && expirationTimeInMillis == old(expirationTimeInMillis)
    {
      this.generationStrategy := generationStrategy;
    }

    method SetExpirationTime(expirationTimeInMillis: int)
      modifies this
      ensures this.expirationTimeInMillis == expirationTimeInMillis
      ensures repository == old(repository) && generationStrategy == old(generationStrategy)
    {
      this.expirationTimeInMillis := expirationTimeInMillis;
    }

    /** `getUsernameFromSessionId`: the stored attempt's user; dereferencing
        the missing attempt of an unknown session throws. No expiry check. */
    method GetUsernameFromSessionId(sessionId: SessionId) returns (r: Result<string, Exception>)
      ensures Lookup(repository.signInAttempts, sessionId).None? ==> r == Failure(NullPointer)
      ensures Lookup(repository.signInAttempts, sessionId).Some? ==>
                r == Success(Lookup(repository.signInAttempts, sessionId).value.username)
    {
      var attempt := repository.GetCode(sessionId);
      if attempt.None? {
        return Failure(NullPointer);
      }
      r := Success(attempt.value.username);
    }

    function IsCodeExpired(realCode: SignInAttempt, now: int): (r: bool)
      reads this
      ensures r <==> Expired(realCode, expirationTimeInMillis, now)
    {
      realCode.time + expirationTimeInMillis < now
    }

    function IsStepOneComplete(sessionId: SessionId, now: int): (r: bool)
      reads this, repository
      ensures r <==> StepOneComplete(repository.signInAttempts, sessionId, expirationTimeInMillis, now)
    {
      var wrapper := Lookup(repository.signInAttempts, sessionId);
      if wrapper.None? then false else !IsCodeExpired(wrapper.value, now)
    }
  }

  /** Expiry is strict and monotone: valid up to and including
      `time + window`, expired from the next millisecond on, and it stays expired. */
  lemma ExpiryBoundary(a: SignInAttempt, window: int, now: int, later: int)
    requires now <= later
    ensures !Expired(a, window, a.time + window)
    ensures Expired(a, window, a.time + window + 1)
    ensures Expired(a, window, now) ==> Expired(a, window, later)
  {
  }

  /** With a non-negative window, a freshly saved attempt completes step one
      at the instant it was saved, and until its window has passed. */
  lemma SavedAttemptCompletesStepOne(m: AttemptMap, a: SignInAttempt, window: int, now: int)
    requires a.sessionId.Some? && window >= 0
    requires a.time <= now <= a.time + window
    ensures !Expired(a, window, a.time)
    ensures StepOneComplete(m[a.sessionId := a], a.sessionId, window, now)
  {
  }

  /** After `cleanUp(s)` the session has no attempt and step one is not
      complete, whatever the instant; a second `cleanUp` changes nothing. */
  lemma CleanUpEndsStepOne(m: AttemptMap, s: SessionId, window: int, now: int)
    ensures Lookup(m - {s}, s).None?
    ensures !StepOneComplete(m - {s}, s, window, now)
    ensures (m - {s}) - {s} == m - {s}
  {
  }

  /** Step one goes from incomplete (no attempt) to complete (fresh attempt)
      and back to incomplete once the window has passed, with no deletion. */
  lemma StepOneLifecycle(m: AttemptMap, a: SignInAttempt, window: int)
    requires a.sessionId.Some? && a.sessionId !in m && window >= 0
    ensures !StepOneComplete(m, a.sessionId, window, a.time)
    ensures StepOneComplete(m[a.sessionId := a], a.sessionId, window, a.time)
    ensures !StepOneComplete(m[a.sessionId := a], a.sessionId, window, a.time + window + 1)
  {
  }
}
