/** The second-factor authentication provider: it decides a code submission
    from the stored attempt of the session, the user the attempt names, and
    the current instant. It writes nothing. */
module Provider {
  import opened Lang
  import opened Text
  import opened Attempts
  import opened Users
  import opened Repository
  import opened CodeService
  import opened Totp
  import opened Tokens

  const CODE_EXPIRED: string := "code is expired"
  const INVALID_CODE: string := "invalid code"

  /** `createNewToken`: the state of the token the authorities constructor
      builds for a loaded user, with null credentials. */
  function NewTokenFor(principal: UserDetails): Authentication
  {
    Authentication(TwoFactorToken, User(principal), None, principal.authorities, true)
  }

  /** `supports`: only the two-factor token class itself. */
  predicate Supports(kind: TokenKind)
  {
    kind == TwoFactorToken
  }

  datatype TwoFactorAuthenticationProvider = TwoFactorAuthenticationProvider(
    codeService: TwoFactorAuthCodeServiceImpl,
    userDetailsService: UserDetailsService,
    totpService: TotpService)
  {
    /** The authenticator-app loop: every key preference of the user accepts
        the submitted code; the other preferences are skipped. */
    predicate KeyPreferencesAccept(user: UserDetails, codeToCheck: string, now: int)
      requires IsLong(now)
    {
      forall i :: i in user.preferences && user.preferences[i].isKey ==>
        TotpAccepts(totpService.crypto, user.preferences[i].data, codeToCheck, now, totpService.codeLength)
    }

    /** `authenticate`. The principal is cast to the session id and the
        credentials to the submitted code; the attempt is dereferenced
        unchecked. With no stored code (authenticator-app path) every key
        preference must accept; with a delivered code the trimmed submission
        must equal it and the attempt must not be expired. */
    function Authenticate(authentication: Authentication, now: int): (r: Result<Authentication, Exception>)
      requires IsLong(now)
      reads codeService, codeService.repository
      ensures r.Success? ==> r.value.authenticated && r.value.kind == TwoFactorToken && r.value.credentials.None?
      ensures r.Success? ==>
                && authentication.principal.Name?
                && var attempt := Lookup(codeService.repository.signInAttempts, authentication.principal.name);
                && attempt.Some?
                && attempt.value.username in userDetailsService
                && r.value == NewTokenFor(userDetailsService[attempt.value.username])
    {
      match authentication.principal
      case User(_) => Failure(ClassCast)
      case Name(sessionId) =>
        var codeToCheck := authentication.credentials;
        match Lookup(codeService.repository.signInAttempts, sessionId)
        case None => Failure(NullPointer)
        case Some(signInAttempt) =>
          match LoadUserByUsername(userDetailsService, signInAttempt.username)
          case Failure(e) => Failure(e)
          case Success(principal) =>
            if signInAttempt.GetTwoFactorCode().None? then
              if !HasKeyPreference(principal) then Success(NewTokenFor(principal))
              else if codeToCheck.None? then Failure(NullPointer)
              else if KeyPreferencesAccept(principal, codeToCheck.value, now) then Success(NewTokenFor(principal))
              else Failure(BadCredentials(CODE_INCORRECT))
            else if codeToCheck.None? then Failure(NullPointer)
            else if Trim(codeToCheck.value) == signInAttempt.GetTwoFactorCode().value then
              if codeService.IsCodeExpired(signInAttempt, now) then Failure(BadCredentials(CODE_EXPIRED))
              else Success(NewTokenFor(principal))
            else Failure(BadCredentials(INVALID_CODE))
    }
  }

  /** The token the code-submission path hands to the provider. */
  function SubmissionToken(sessionId: SessionId, submittedCode: string): Authentication
  {
    Authentication(TwoFactorToken, Name(sessionId), Some(submittedCode), [], false)
  }

  /** The provider supports the tokens the filter submits and the tokens it
      issues itself, and not the username-password token of step one. */
  lemma SupportsTwoFactorTokensOnly(sessionId: SessionId, submittedCode: string, user: UserDetails)
    ensures Supports(SubmissionToken(sessionId, submittedCode).kind)
    ensures Supports(NewTokenFor(user).kind)
    ensures !Supports(UsernamePasswordToken)
  {
  }

  /** Without a stored attempt for the session the provider fails with a
      null dereference and never authenticates. */
  lemma NoAttemptNoAuthentication(p: TwoFactorAuthenticationProvider, sessionId: SessionId, submittedCode: string, now: int)
    requires IsLong(now)
    requires Lookup(p.codeService.repository.signInAttempts, sessionId).None?
    ensures p.Authenticate(SubmissionToken(sessionId, submittedCode), now) == Failure(NullPointer)
  {
  }

  /** Delivered-code path: the submission succeeds exactly when its trimmed
      form equals the stored trimmed code and the attempt is not expired. A
      wrong code is "invalid code" at any instant; a right but expired one is
      "code is expired". */
  lemma DeliveredCodeDecision(p: TwoFactorAuthenticationProvider, sessionId: SessionId, submittedCode: string, now: int)
    requires IsLong(now)
    requires Lookup(p.codeService.repository.signInAttempts, sessionId).Some?
    requires var a := Lookup(p.codeService.repository.signInAttempts, sessionId).value;
      a.twoFactorCode.Some? && a.username in p.userDetailsService
    ensures var a := Lookup(p.codeService.repository.signInAttempts, sessionId).value;
      var matches := Trim(submittedCode) == a.GetTwoFactorCode().value;
      var expired := Expired(a, p.codeService.expirationTimeInMillis, now);
      var r := p.Authenticate(SubmissionToken(sessionId, submittedCode), now);
      && (r.Success? <==> matches && !expired)
      && (!matches ==> r == Failure(BadCredentials(INVALID_CODE)))
      && (matches && expired ==> r == Failure(BadCredentials(CODE_EXPIRED)))
  {
  }

  /** Blanks around a submitted delivered code are ignored. */
  lemma {:induction false} PaddedDeliveredCodeAccepted(p: TwoFactorAuthenticationProvider, sessionId: SessionId, pre: string, post: string, now: int)
    requires IsLong(now)
    requires Lookup(p.codeService.repository.signInAttempts, sessionId).Some?
    requires var a := Lookup(p.codeService.repository.signInAttempts, sessionId).value;
      && a.twoFactorCode.Some? && a.username in p.userDetailsService
      && !Expired(a, p.codeService.expirationTimeInMillis, now)
    requires forall k :: 0 <= k < |pre| ==> Blank(pre[k])
    requires forall k :: 0 <= k < |post| ==> Blank(post[k])
    ensures var a := Lookup(p.codeService.repository.signInAttempts, sessionId).value;
      p.Authenticate(SubmissionToken(sessionId, pre + a.twoFactorCode.value + post), now).Success?
  {
    var a := Lookup(p.codeService.repository.signInAttempts, sessionId).value;
    TrimIgnoresBlankPadding(pre, a.twoFactorCode.value, post);
    TrimIdempotent(a.twoFactorCode.value);
  }

  /** Authenticator-app path: the submission succeeds exactly when every key
      preference of the user accepts it; a rejection is "code was incorrect!". */
  lemma TotpPathDecision(p: TwoFactorAuthenticationProvider, sessionId: SessionId, submittedCode: string, now: int)
    requires IsLong(now)
    requires Lookup(p.codeService.repository.signInAttempts, sessionId).Some?
    requires var a := Lookup(p.codeService.repository.signInAttempts, sessionId).value;
      a.twoFactorCode.None? && a.username in p.userDetailsService
    ensures var a := Lookup(p.codeService.repository.signInAttempts, sessionId).value;
      var user := p.userDetailsService[a.username];
      var r := p.Authenticate(SubmissionToken(sessionId, submittedCode), now);
      && (r.Success? <==> p.KeyPreferencesAccept(user, submittedCode, now))
      && (r.Failure? ==> r.error == BadCredentials(CODE_INCORRECT))
  {
  }

  /** Authenticator-app path for a user with no key preference: the provider
      authenticates whatever was submitted, even a null code. */
  lemma NoKeyPreferenceBypass(p: TwoFactorAuthenticationProvider, sessionId: SessionId, credentials: Option<string>, now: int)
    requires IsLong(now)
    requires Lookup(p.codeService.repository.signInAttempts, sessionId).Some?
    requires var a := Lookup(p.codeService.repository.signInAttempts, sessionId).value;
      a.twoFactorCode.None? && a.username in p.userDetailsService
      && !HasKeyPreference(p.userDetailsService[a.username])
    ensures var a := Lookup(p.codeService.repository.signInAttempts, sessionId).value;
      p.Authenticate(Authentication(TwoFactorToken, Name(sessionId), credentials, [], false), now)
        == Success(NewTokenFor(p.userDetailsService[a.username]))
  {
  }

  /** The current-step code of a user's only key preference passes the
      authenticator-app loop. */
  lemma SoleKeyPreferenceAccepts(p: TwoFactorAuthenticationProvider, user: UserDetails, now: int, index: int)
    requires IsLong(now) && p.totpService.codeLength >= 1
    requires index in user.preferences && user.preferences[index].isKey
    requires forall i :: i in user.preferences && i != index ==> !user.preferences[i].isKey
    ensures p.KeyPreferencesAccept(user,
              TotpCode(p.totpService.crypto, user.preferences[index].data, Interval(now), p.totpService.codeLength), now)
  {
    var code := TotpCode(p.totpService.crypto, user.preferences[index].data, Interval(now), p.totpService.codeLength);
    WindowCodesAccepted(p.totpService.crypto, user.preferences[index].data, now, p.totpService.codeLength);
    forall i | i in user.preferences && user.preferences[i].isKey
      ensures TotpAccepts(p.totpService.crypto, user.preferences[i].data, code, now, p.totpService.codeLength)
    {
      assert i == index;
    }
  }

  /** On the authenticator-app path, a user with a single key preference is
      authenticated by that key's current-step code. */
  lemma SoleKeyCodeAuthenticates(p: TwoFactorAuthenticationProvider, sessionId: SessionId, now: int, index: int)
    requires IsLong(now) && p.totpService.codeLength >= 1
    requires Lookup(p.codeService.repository.signInAttempts, sessionId).Some?
    requires var a := Lookup(p.codeService.repository.signInAttempts, sessionId).value;
      && a.twoFactorCode.None? && a.username in p.userDetailsService
      && var prefs := p.userDetailsService[a.username].preferences;
      && index in prefs && prefs[index].isKey
      && forall i :: i in prefs && i != index ==> !prefs[i].isKey
    ensures var a := Lookup(p.codeService.repository.signInAttempts, sessionId).value;
      var secret := p.userDetailsService[a.username].preferences[index].data;
      var code := TotpCode(p.totpService.crypto, secret, Interval(now), p.totpService.codeLength);
      p.Authenticate(SubmissionToken(sessionId, code), now).Success?
  {
    var a := Lookup(p.codeService.repository.signInAttempts, sessionId).value;
    var user := p.userDetailsService[a.username];
    var code := TotpCode(p.totpService.crypto, user.preferences[index].data, Interval(now), p.totpService.codeLength);
    SoleKeyPreferenceAccepts(p, user, now, index);
    TotpPathDecision(p, sessionId, code, now);
  }

  /** Whenever step one is complete at the instant of the check, as the
      filter requires before calling the provider, the expiry branch cannot
      be taken: the filter's guard and the provider agree on expiry. */
  lemma StepOneGuardExcludesExpiry(p: TwoFactorAuthenticationProvider, sessionId: SessionId, submittedCode: string, now: int)
    requires IsLong(now)
    requires StepOneComplete(p.codeService.repository.signInAttempts, sessionId, p.codeService.expirationTimeInMillis, now)
    ensures p.Authenticate(SubmissionToken(sessionId, submittedCode), now) != Failure(BadCredentials(CODE_EXPIRED))
  {
  }
}
