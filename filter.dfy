/** The two-factor authentication filter: it dispatches a request that the
    login, code-submission or resend matcher accepted, and acts by redirects,
    code sends and the removal of the session's attempt. The request
    matchers are given as their answers for the request; the response is the
    list of effects in the order they happen. */
module AuthFilter {
  import opened Lang
  import opened Attempts
  import opened Users
  import opened Repository
  import opened CodeService
  import opened Tokens
  import opened Provider
  import opened Http
  import opened Text
  import opened Totp

  const DEFAULT_USERNAME_FORM_KEY: string := "username"
  const DEFAULT_PASSWORD_FORM_KEY: string := "password"
  const DEFAULT_CODE_FORM_KEY: string := "code"
  const DEFAULT_TWO_FACTOR_PROCESSING_URL: string := "/2FA/authenticate"
  const DEFAULT_LOGIN_REQUEST_URL: string := "/login"
  const DEFAULT_CODE_RESEND_URL: string := "/2FA/resend"
  const DEFAULT_TWO_FACTOR_FAILURE_URL: string := "/2FA?error"
  const DEFAULT_TWO_FACTOR_REDIRECT_URL: string := "/2FA"
  const DEFAULT_TWO_FACTOR_CHOICE_URL: string := "/2FA/choice"

  /** The answers of the three request matchers for one request. */
  datatype RequestMatch = RequestMatch(login: bool, processing: bool, resend: bool)

  /** What the filter does to the outside world. */
  datatype Effect =
    | Redirect(url: string)
    | SendCode(user: UserDetails, attempt: SignInAttempt)
    | HandleSendFailure(attempt: SignInAttempt)

  /** How `attemptAuthentication` ends: it returns an authentication (null
      when a redirect or a further step is required) or throws. */
  datatype FilterOutcome = Returned(auth: Option<Authentication>) | Threw(error: Exception)

  /** The configurable URLs and form keys. */
  datatype FilterConfig = FilterConfig(
    usernameFormKey: string,
    passwordFormKey: string,
    twoFactorAuthCodeFormKey: string,
    twoFactorFailureUrl: string,
    twoFactorChoiceUrl: string,
    twoFactorRedirectUrl: string,
    loginRequestUrl: string)

  const DEFAULT_CONFIG: FilterConfig := FilterConfig(
    DEFAULT_USERNAME_FORM_KEY, DEFAULT_PASSWORD_FORM_KEY, DEFAULT_CODE_FORM_KEY,
    DEFAULT_TWO_FACTOR_FAILURE_URL, DEFAULT_TWO_FACTOR_CHOICE_URL,
    DEFAULT_TWO_FACTOR_REDIRECT_URL, DEFAULT_LOGIN_REQUEST_URL)

  /** A form parameter as the getters read it: a missing one is the empty string. */
  function FormParameter(parameters: map<string, string>, key: string): (r: string)
    ensures key in parameters ==> r == parameters[key]
    ensures key !in parameters ==> r == ""
  {
    if key in parameters then parameters[key] else ""
  }

  /** `requiresAuthentication`: a POST accepted by the login or the
      code-submission matcher, or any request accepted by the resend matcher. */
  predicate RequiresAuthentication(httpMethod: string, matched: RequestMatch)
  {
    (httpMethod == "POST" && (matched.login || matched.processing)) || matched.resend
  }

  /** Only POST login and code submissions are handled, while a resend is
      handled whatever its method. */
  lemma RequiresAuthenticationCases(httpMethod: string, matched: RequestMatch)
    ensures httpMethod != "POST" && !matched.resend ==> !RequiresAuthentication(httpMethod, matched)
    ensures matched.resend ==> RequiresAuthentication(httpMethod, matched)
    ensures httpMethod == "POST" && (matched.login || matched.processing) ==> RequiresAuthentication(httpMethod, matched)
    ensures !matched.login && !matched.processing && !matched.resend ==> !RequiresAuthentication(httpMethod, matched)
  {
  }

  /** How `handleUsernamePasswordLogin` ends, given whether step one is
      complete and the manager's answer for the form's credentials: a
      complete step one goes to the choice page unchecked; a manager
      exception propagates; a null principal passes the cast and fails on
      its first call (`NullPointerException`), any other non-user principal
      fails the cast; a two-factor user goes to the choice page; any other
      user's authentication is returned. */
  predicate UsernamePasswordLoginEnds(complete: bool, primary: Result<Authentication, Exception>, choiceUrl: string,
                                      outcome: FilterOutcome, effects: seq<Effect>)
  {
    && (complete ==> outcome == Returned(None) && effects == [Redirect(choiceUrl)])
    && (!complete ==>
          && (primary.Failure? ==> outcome == Threw(primary.error) && effects == [])
          && (primary.Success? && primary.value.principal == Name(None) ==> outcome == Threw(NullPointer) && effects == [])
          && (primary.Success? && primary.value.principal.Name? && primary.value.principal.name.Some? ==>
                outcome == Threw(ClassCast) && effects == [])
          && (primary.Success? && primary.value.principal.User? && primary.value.principal.details.twoFactorEnabled ==>
                outcome == Returned(None) && effects == [Redirect(choiceUrl)])
          && (primary.Success? && primary.value.principal.User? && !primary.value.principal.details.twoFactorEnabled ==>
                outcome == Returned(Some(primary.value)) && effects == []))
  }

  /** Step one's login hands back an authentication only for a user without
      two factors, and only the manager's own answer, after the manager was
      asked; a two-factor user never leaves step one authenticated. */
  lemma {:induction false} LoginReturnsOnlySingleFactorUsers(complete: bool, primary: Result<Authentication, Exception>, choiceUrl: string,
                                                             outcome: FilterOutcome, effects: seq<Effect>)
    requires UsernamePasswordLoginEnds(complete, primary, choiceUrl, outcome, effects)
    ensures outcome.Returned? && outcome.auth.Some? ==>
              && !complete && primary == Success(outcome.auth.value)
              && outcome.auth.value.principal.User? && !outcome.auth.value.principal.details.twoFactorEnabled
    ensures outcome.Returned? ==> effects == [] || effects == [Redirect(choiceUrl)]
  {
    if !complete && primary.Success? {
      match primary.value.principal
      case Name(name) =>
        if name.None? {
          assert outcome == Threw(NullPointer);
        } else {
          assert outcome == Threw(ClassCast);
        }
      case User(details) =>
    }
  }

  class TwoFactorAuthenticationFilter {
    var usernameFormKey: string
    var passwordFormKey: string
    var twoFactorAuthCodeFormKey: string
    var twoFactorFailureUrl: string
    var twoFactorChoiceUrl: string
    var twoFactorRedirectUrl: string
    var loginRequestUrl: string
    var codeService: TwoFactorAuthCodeServiceImpl
    /** The user lookup of the resend branch; `None` is a field never assigned. */
    const userDetailsService: Option<UserDetailsService>
    /** The authentication manager's answer for a username and password (step one). */
    const authenticationManager: (string, string) -> Result<Authentication, Exception>
    /** The provider the manager hands two-factor tokens to. */
    const provider: TwoFactorAuthenticationProvider

    function Config(): FilterConfig
      reads this
    {
      FilterConfig(usernameFormKey, passwordFormKey, twoFactorAuthCodeFormKey,
             twoFactorFailureUrl, twoFactorChoiceUrl, twoFactorRedirectUrl, loginRequestUrl)
    }

    /** The constructor as written: defaults everywhere, and no user lookup,
        since nothing ever assigns that field. */
    constructor (authenticationManager: (string, string) -> Result<Authentication, Exception>,
                 provider: TwoFactorAuthenticationProvider, codeService: TwoFactorAuthCodeServiceImpl)
      ensures Config() == DEFAULT_CONFIG
      ensures this.codeService == codeService && this.provider == provider
      ensures this.authenticationManager == authenticationManager
      ensures userDetailsService.None?
    {
      usernameFormKey := DEFAULT_USERNAME_FORM_KEY;
      passwordFormKey := DEFAULT_PASSWORD_FORM_KEY;
      twoFactorAuthCodeFormKey := DEFAULT_CODE_FORM_KEY;
      twoFactorFailureUrl := DEFAULT_TWO_FACTOR_FAILURE_URL;
      twoFactorChoiceUrl := DEFAULT_TWO_FACTOR_CHOICE_URL;
      twoFactorRedirectUrl := DEFAULT_TWO_FACTOR_REDIRECT_URL;
      loginRequestUrl := DEFAULT_LOGIN_REQUEST_URL;
      this.codeService := codeService;
      this.provider := provider;
      this.authenticationManager := authenticationManager;
      userDetailsService := None;
    }

    /** The corrected construction: the resend branch gets the user lookup it uses. */
    constructor WithUserDetailsService(
                 authenticationManager: (string, string) -> Result<Authentication, Exception>,
                 provider: TwoFactorAuthenticationProvider, codeService: TwoFactorAuthCodeServiceImpl,
                 userDetailsService: UserDetailsService)
      ensures Config() == DEFAULT_CONFIG
      ensures this.codeService == codeService && this.provider == provider
      ensures this.authenticationManager == authenticationManager
      ensures this.userDetailsService == Some(userDetailsService)
    {
      usernameFormKey := DEFAULT_USERNAME_FORM_KEY;
      passwordFormKey := DEFAULT_PASSWORD_FORM_KEY;
      twoFactorAuthCodeFormKey := DEFAULT_CODE_FORM_KEY;
      twoFactorFailureUrl := DEFAULT_TWO_FACTOR_FAILURE_URL;
      twoFactorChoiceUrl := DEFAULT_TWO_FACTOR_CHOICE_URL;
      twoFactorRedirectUrl := DEFAULT_TWO_FACTOR_REDIRECT_URL;
      loginRequestUrl := DEFAULT_LOGIN_REQUEST_URL;
      this.codeService := codeService;
      this.provider := provider;
      this.authenticationManager := authenticationManager;
      this.userDetailsService := Some(userDetailsService);
    }

    /** `attemptAuthentication`: the login matcher wins, then the
        code-submission matcher, then the resend matcher; anything else
        returns null untouched. The store changes only on a successful code
        submission, and then only by removing that session's attempt. */
    method AttemptAuthentication(request: Request, matched: RequestMatch, sendSucceeds: bool, now: int)
      returns (outcome: FilterOutcome, effects: seq<Effect>)
      requires IsLong(now)
      modifies codeService.repository
      ensures var sid := request.sessionId;
        var m := old(codeService.repository.signInAttempts);
        var complete := StepOneComplete(m, sid, codeService.expirationTimeInMillis, now);
        && (matched.login ==>
              && codeService.repository.signInAttempts == m
              && UsernamePasswordLoginEnds(complete,
                   authenticationManager(FormParameter(request.parameters, usernameFormKey),
                                         FormParameter(request.parameters, passwordFormKey)),
                   twoFactorChoiceUrl, outcome, effects))
        && (!matched.login && matched.processing && !complete ==>
              outcome == Returned(None) && effects == [Redirect(loginRequestUrl)]
              && codeService.repository.signInAttempts == m)
        && (!matched.login && matched.processing && complete ==>
              var result := old(provider.Authenticate(SubmissionToken(sid, FormParameter(request.parameters, twoFactorAuthCodeFormKey)), now));
              && (result.Success? ==>
                    outcome == Returned(Some(result.value)) && effects == []
                    && codeService.repository.signInAttempts == m - {sid})
              && (result.Failure? && result.error.IsAuthenticationException() ==>
                    outcome == Returned(None) && effects == [Redirect(twoFactorFailureUrl)]
                    && codeService.repository.signInAttempts == m)
              && (result.Failure? && !result.error.IsAuthenticationException() ==>
                    outcome == Threw(result.error) && effects == []
                    && codeService.repository.signInAttempts == m))
        && (!matched.login && !matched.processing && matched.resend ==>
              && codeService.repository.signInAttempts == m
              && (!complete ==> outcome == Returned(None) && effects == [Redirect(loginRequestUrl)])
              && (complete && userDetailsService.None? ==> outcome == Threw(NullPointer) && effects == [])
              && (complete && userDetailsService.Some? ==>
                    var attempt := m[sid];
                    var user := LoadUserByUsername(userDetailsService.value, attempt.username);
                    && (user.Failure? ==> outcome == Threw(user.error) && effects == [])
                    && (user.Success? ==>
                          outcome == Returned(None) && |effects| >= 1
                          && effects[0] == Effect.SendCode(user.value, attempt)
                          && (sendSucceeds ==> effects == [Effect.SendCode(user.value, attempt)])
                          && (!sendSucceeds ==> effects == [Effect.SendCode(user.value, attempt), HandleSendFailure(attempt)]))))
        && (!matched.login && !matched.processing && !matched.resend ==>
              outcome == Returned(None) && effects == [] && codeService.repository.signInAttempts == m)
      ensures codeService.repository.signInAttempts != old(codeService.repository.signInAttempts) ==>
                && outcome.Returned? && outcome.auth.Some? && outcome.auth.value.authenticated
                && codeService.repository.signInAttempts == old(codeService.repository.signInAttempts) - {request.sessionId}
    {
      if matched.login {
        outcome, effects := HandleUsernamePasswordLogin(request, now);
      } else if matched.processing {
        outcome, effects := HandleTwoFactorAuthenticationLogin(request, now);
      } else if matched.resend {
        var complete := codeService.IsStepOneComplete(request.sessionId, now);
        if complete {
          var codeWrapper := codeService.GetCode(request.sessionId);
          if userDetailsService.None? {
            return Threw(NullPointer), [];
          }
          var userDetails := LoadUserByUsername(userDetailsService.value, codeWrapper.value.username);
          if userDetails.Failure? {
            return Threw(userDetails.error), [];
          }
          effects := SendCode(userDetails.value, codeWrapper.value, sendSucceeds);
        } else {
          effects := [Redirect(loginRequestUrl)];
        }
        outcome := Returned(None);
      } else {
        outcome, effects := Returned(None), [];
      }
    }

    /** `handleUsernamePasswordLogin`: with step one already complete the
        user is sent to the choice page and the credentials are not checked;
        otherwise the form's username and password go to the manager. A user
        with two factors enabled is sent to the choice page with nothing
        saved (the saving code is commented out); any other user's
        authentication is returned as it is. */
    method HandleUsernamePasswordLogin(request: Request, now: int) returns (outcome: FilterOutcome, effects: seq<Effect>)
      ensures UsernamePasswordLoginEnds(
                StepOneComplete(codeService.repository.signInAttempts, request.sessionId, codeService.expirationTimeInMillis, now),
                authenticationManager(FormParameter(request.parameters, usernameFormKey),
                                      FormParameter(request.parameters, passwordFormKey)),
                twoFactorChoiceUrl, outcome, effects)
    {
      if codeService.IsStepOneComplete(request.sessionId, now) {
        return Returned(None), [Redirect(twoFactorChoiceUrl)];
      }
      var username := FormParameter(request.parameters, usernameFormKey);
      var password := FormParameter(request.parameters, passwordFormKey);
      var authentication := authenticationManager(username, password);
      if authentication.Failure? {
        return Threw(authentication.error), [];
      }
      if authentication.value.principal == Name(None) {
        return Threw(NullPointer), [];
      }
      if !authentication.value.principal.User? {
        return Threw(ClassCast), [];
      }
      var userDetails := authentication.value.principal.details;
      if userDetails.twoFactorEnabled {
        outcome, effects := Returned(None), [Redirect(twoFactorChoiceUrl)];
      } else {
        outcome, effects := Returned(Some(authentication.value)), [];
      }
    }

    /** `handleTwoFactorAuthenticationLogin`: with step one incomplete the
        user is sent back to the login page; otherwise a pending token for
        the session and the submitted code goes to the provider. Success
        removes the session's attempt and returns the provider's token; an
        authentication failure keeps the attempt and redirects to the
        failure URL; any other exception propagates. */
    method HandleTwoFactorAuthenticationLogin(request: Request, now: int) returns (outcome: FilterOutcome, effects: seq<Effect>)
      requires IsLong(now)
      modifies codeService.repository
      ensures var sid := request.sessionId;
        var m := old(codeService.repository.signInAttempts);
        && (!StepOneComplete(m, sid, codeService.expirationTimeInMillis, now) ==>
              outcome == Returned(None) && effects == [Redirect(loginRequestUrl)]
              && codeService.repository.signInAttempts == m)
        && (StepOneComplete(m, sid, codeService.expirationTimeInMillis, now) ==>
              var result := old(provider.Authenticate(SubmissionToken(sid, FormParameter(request.parameters, twoFactorAuthCodeFormKey)), now));
              && (result.Success? ==>
                    outcome == Returned(Some(result.value)) && effects == []
                    && codeService.repository.signInAttempts == m - {sid})
              && (result.Failure? && result.error.IsAuthenticationException() ==>
                    outcome == Returned(None) && effects == [Redirect(twoFactorFailureUrl)]
                    && codeService.repository.signInAttempts == m)
              && (result.Failure? && !result.error.IsAuthenticationException() ==>
                    outcome == Threw(result.error) && effects == []
                    && codeService.repository.signInAttempts == m))
    {
      var sessionId := request.sessionId;
      var submittedCode := FormParameter(request.parameters, twoFactorAuthCodeFormKey);
      if !codeService.IsStepOneComplete(sessionId, now) {
        return Returned(None), [Redirect(loginRequestUrl)];
      }
      var authenticationToken := new TwoFactorAuthenticationToken(Name(sessionId), Some(submittedCode));
      var result := provider.Authenticate(authenticationToken.Snapshot(), now);
      if result.Success? {
        codeService.CleanUp(sessionId);
        outcome, effects := Returned(Some(result.value)), [];
      } else if result.error.IsAuthenticationException() {
        outcome, effects := Returned(None), [Redirect(twoFactorFailureUrl)];
      } else {
        outcome, effects := Threw(result.error), [];
      }
    }

    /** `sendCode`: the send strategy is called with the user and the
        attempt; if it throws, the failure strategy gets the same attempt. */
    method SendCode(userDetails: UserDetails, codeWrapper: SignInAttempt, sendSucceeds: bool) returns (effects: seq<Effect>)
      ensures |effects| >= 1 && effects[0] == Effect.SendCode(userDetails, codeWrapper)
      ensures sendSucceeds <==> |effects| == 1
      ensures !sendSucceeds ==> effects == [Effect.SendCode(userDetails, codeWrapper), HandleSendFailure(codeWrapper)]
    {
      effects := [Effect.SendCode(userDetails, codeWrapper)];
      if !sendSucceeds {
        effects := effects + [HandleSendFailure(codeWrapper)];
      }
    }

    method SetUsernameFormKey(usernameFormKey: string)
      modifies this
      ensures Config() == old(Config()).(usernameFormKey := usernameFormKey)
      ensures codeService == old(codeService)
    {
      this.usernameFormKey := usernameFormKey;
    }

    method SetPasswordFormKey(passwordFormKey: string)
      modifies this
      ensures Config() == old(Config()).(passwordFormKey := passwordFormKey)
      ensures codeService == old(codeService)
    {
      this.passwordFormKey := passwordFormKey;
    }

    method SetTwoFactorAuthCodeFormKey(twoFactorAuthCodeFormKey: string)
      modifies this
      ensures Config() == old(Config()).(twoFactorAuthCodeFormKey := twoFactorAuthCodeFormKey)
      ensures codeService == old(codeService)
    {
      this.twoFactorAuthCodeFormKey := twoFactorAuthCodeFormKey;
    }

    method SetCodeService(codeService: TwoFactorAuthCodeServiceImpl)
      modifies this
      ensures Config() == old(Config()) && this.codeService == codeService
    {
      this.codeService := codeService;
    }

    method SetTwoFactorFailureUrl(twoFactorFailureUrl: string)
      modifies this
      ensures Config() == old(Config()).(twoFactorFailureUrl := twoFactorFailureUrl)
      ensures codeService == old(codeService)
    {
      this.twoFactorFailureUrl := twoFactorFailureUrl;
    }

    method SetTwoFactorRedirectUrl(twoFactorRedirectUrl: string)
      modifies this
      ensures Config() == old(Config()).(twoFactorRedirectUrl := twoFactorRedirectUrl)
      ensures codeService == old(codeService)
    {
      this.twoFactorRedirectUrl := twoFactorRedirectUrl;
    }

    method SetLoginRequestUrl(loginRequestUrl: string)
      modifies this
      ensures Config() == old(Config()).(loginRequestUrl := loginRequestUrl)
      ensures codeService == old(codeService)
    {
      this.loginRequestUrl := loginRequestUrl;
    }
  }

  /** As written: right after step one saved an attempt for the session, a
      resend request throws a null dereference instead of sending the code
      again, because the filter's user lookup is never assigned. */
  method ResendAsWritten(authenticationManager: (string, string) -> Result<Authentication, Exception>,
                         provider: TwoFactorAuthenticationProvider,
                         sessionId: string, username: string, code: string, now: int)
    returns (outcome: FilterOutcome, effects: seq<Effect>)
    requires IsLong(now)
    ensures outcome == Threw(NullPointer) && effects == []
  {
    var repository := new InMemoryTwoFactorAuthCodeRepository();
    var codeService := new TwoFactorAuthCodeServiceImpl(repository);
    var _ := codeService.SaveAttempt(Some(sessionId), username, Some(code), now);
    var filter := new TwoFactorAuthenticationFilter(authenticationManager, provider, codeService);
    var request := Request("GET", DEFAULT_CODE_RESEND_URL, None, "", Some(sessionId), map[]);
    outcome, effects := filter.AttemptAuthentication(request, RequestMatch(false, false, true), true, now);
  }

  /** Corrected: with the user lookup supplied, the same resend hands the
      stored attempt and its user to the send strategy. */
  method ResendCorrected(authenticationManager: (string, string) -> Result<Authentication, Exception>,
                         provider: TwoFactorAuthenticationProvider, user: UserDetails,
                         sessionId: string, code: string, now: int)
    returns (outcome: FilterOutcome, effects: seq<Effect>)
    requires IsLong(now)
    ensures outcome == Returned(None)
    ensures effects == [Effect.SendCode(user, SignInAttempt(Some(sessionId), Some(code), user.username, now))]
  {
    var repository := new InMemoryTwoFactorAuthCodeRepository();
    var codeService := new TwoFactorAuthCodeServiceImpl(repository);
    var _ := codeService.SaveAttempt(Some(sessionId), user.username, Some(code), now);
    var filter := new TwoFactorAuthenticationFilter.WithUserDetailsService(
      authenticationManager, provider, codeService, map[user.username := user]);
    var request := Request("GET", DEFAULT_CODE_RESEND_URL, None, "", Some(sessionId), map[]);
    outcome, effects := filter.AttemptAuthentication(request, RequestMatch(false, false, true), true, now);
  }

  /** The first submission of a stored delivered code, digits only and
      within its window, authenticates the attempt's user and empties the
      store. */
  method SubmitDeliveredCode(filter: TwoFactorAuthenticationFilter, user: UserDetails,
                             sessionId: string, code: string, now: int)
    returns (outcome: FilterOutcome, effects: seq<Effect>)
    requires IsLong(now) && AllDigits(code)
    requires filter.twoFactorAuthCodeFormKey == DEFAULT_CODE_FORM_KEY
    requires filter.provider.codeService == filter.codeService
    requires filter.provider.userDetailsService == map[user.username := user]
    requires filter.codeService.expirationTimeInMillis >= 0
    requires filter.codeService.repository.signInAttempts
               == map[Some(sessionId) := SignInAttempt(Some(sessionId), Some(code), user.username, now)]
    modifies filter.codeService.repository
    ensures outcome == Returned(Some(NewTokenFor(user))) && effects == []
    ensures filter.codeService.repository.signInAttempts == map[]
  {
    var request := Request("POST", DEFAULT_TWO_FACTOR_PROCESSING_URL, None, "", Some(sessionId),
                           map[DEFAULT_CODE_FORM_KEY := code]);
    outcome, effects := filter.AttemptAuthentication(request, RequestMatch(false, true, false), true, now);
  }

  /** A delivered code is single-use: the first submission of the stored
      code authenticates the user and removes the attempt, so submitting it
      again at once sends the user back to the login page. */
  method DeliveredCodeIsSingleUse(authenticationManager: (string, string) -> Result<Authentication, Exception>,
                                  totpService: TotpService, user: UserDetails,
                                  sessionId: string, code: string, now: int)
    returns (first: FilterOutcome, second: FilterOutcome, secondEffects: seq<Effect>)
    requires IsLong(now) && AllDigits(code)
    ensures first == Returned(Some(NewTokenFor(user)))
    ensures second == Returned(None) && secondEffects == [Redirect(DEFAULT_LOGIN_REQUEST_URL)]
  {
    var repository := new InMemoryTwoFactorAuthCodeRepository();
    var codeService := new TwoFactorAuthCodeServiceImpl(repository);
    var users := map[user.username := user];
    var provider := TwoFactorAuthenticationProvider(codeService, users, totpService);
    var _ := codeService.SaveAttempt(Some(sessionId), user.username, Some(code), now);
    var filter := new TwoFactorAuthenticationFilter.WithUserDetailsService(
      authenticationManager, provider, codeService, users);
    var firstEffects;
    first, firstEffects := SubmitDeliveredCode(filter, user, sessionId, code, now);
    var request := Request("POST", DEFAULT_TWO_FACTOR_PROCESSING_URL, None, "", Some(sessionId),
                           map[DEFAULT_CODE_FORM_KEY := code]);
    second, secondEffects := filter.AttemptAuthentication(request, RequestMatch(false, true, false), true, now);
  }
}
