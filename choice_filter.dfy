/** The filter that serves the two-factor choice page: on the choice URL or
    the failure URL it looks up the user of the session's attempt and lists
    one form per registered preference; every other request passes on. */
module ChoiceFilter {
  import opened Lang
  import opened Text
  import opened Attempts
  import opened Preferences
  import opened Users
  import opened Repository
  import opened CodeService
  import opened Http

  const AUTHENTICATOR_APP_LABEL: string := "Use Authenticator App"
  const SEND_CODE_LABEL: string := "Send code to "

  /** A reference rendered by string concatenation: null becomes "null". */
  function StringOf(s: Option<string>): string
  {
    if s.Some? then s.value else "null"
  }

  /** The request URI cut at its first `;` when that is not the first
      character, followed by `?` and the query string when there is one. */
  function EffectiveUri(request: Request): string
  {
    var uri := request.requestUri;
    var pathParamIndex := IndexOf(uri, ';');
    var stripped := if pathParamIndex > 0 then uri[..pathParamIndex] else uri;
    if request.queryString.Some? then stripped + "?" + request.queryString.value else stripped
  }

  /** `matches`: a GET whose effective URI is the url, or the context path
      followed by the url when the context path is not empty. */
  function Matches(request: Request, url: Option<string>): (r: bool)
    ensures r ==> request.httpMethod == "GET" && url.Some?
    ensures r && request.contextPath == "" ==> EffectiveUri(request) == url.value
    ensures r && request.contextPath != "" ==> EffectiveUri(request) == request.contextPath + url.value
  {
    if request.httpMethod != "GET" || url.None? then false
    else
      var uri := EffectiveUri(request);
      if request.contextPath == "" then uri == url.value
      else uri == request.contextPath + url.value
  }

  /** The converse of `Matches`'s contract: a GET whose effective URI is the
      url, behind the context path when there is one, matches. */
  lemma MatchesWhenUriEqual(request: Request, url: string)
    requires request.httpMethod == "GET"
    requires EffectiveUri(request) == if request.contextPath == "" then url else request.contextPath + url
    ensures Matches(request, Some(url))
  {
  }

  /** Locating the first `;` of `base + rest` when `base` has none and
      `rest` starts with one. */
  lemma {:induction false} IndexOfAfterPrefix(base: string, rest: string)
    requires ';' !in base && rest != [] && rest[0] == ';'
    ensures IndexOf(base + rest, ';') == |base|
  {
    var s := base + rest;
    assert s[|base|] == ';';
  }

  /** Path parameters after a non-empty path are ignored. */
  lemma PathParametersIgnored(request: Request, url: Option<string>, base: string, parameters: string)
    requires base != [] && ';' !in base && parameters != [] && parameters[0] == ';'
    ensures Matches(request.(requestUri := base + parameters), url) == Matches(request.(requestUri := base), url)
  {
    IndexOfAfterPrefix(base, parameters);
    assert (base + parameters)[..|base|] == base;
  }

  /** A URI that starts with `;` is not cut: it is compared whole. */
  lemma LeadingSemicolonKept(request: Request)
    requires request.requestUri != [] && request.requestUri[0] == ';'
    ensures EffectiveUri(request) == request.requestUri
         + (if request.queryString.Some? then "?" + request.queryString.value else "")
  {
    assert IndexOf(request.requestUri, ';') == 0;
  }

  /** A non-empty context path is matched as a prefix of the url. */
  lemma ContextPathPrefixesUrl(request: Request, url: string)
    requires request.contextPath != ""
    ensures Matches(request, Some(url)) == Matches(request.(contextPath := ""), Some(request.contextPath + url))
  {
  }

  /** With a query string present, a url without `?` never matches (unless
      the context path supplies one): the query string takes part in the
      comparison. */
  lemma {:induction false} QueryStringTakesPart(request: Request, url: string)
    requires request.queryString.Some?
    requires '?' !in url && '?' !in request.contextPath
    ensures !Matches(request, Some(url))
  {
    var uri := request.requestUri;
    var pathParamIndex := IndexOf(uri, ';');
    var stripped := if pathParamIndex > 0 then uri[..pathParamIndex] else uri;
    var e := EffectiveUri(request);
    assert e == stripped + "?" + request.queryString.value;
    assert e[|stripped|] == '?';
    assert '?' in e;
    var target := if request.contextPath == "" then url else request.contextPath + url;
    assert '?' !in target;
  }

  /** The default failure URL `/2FA?error` matches a GET of `/2FA` with the
      query string `error`, and the plain `/2FA` does not. */
  lemma FailureUrlMatchesItsQuery(sessionId: SessionId, parameters: map<string, string>)
    ensures Matches(Request("GET", "/2FA", Some("error"), "", sessionId, parameters), Some("/2FA?error"))
    ensures !Matches(Request("GET", "/2FA", None, "", sessionId, parameters), Some("/2FA?error"))
  {
    assert IndexOf("/2FA", ';') == -1;
    assert "/2FA" + "?" + "error" == "/2FA?error";
    assert |"/2FA"| != |"/2FA?error"|;
  }

  /** One form of the choice page: the URL it posts under, the preference
      key appended to that URL, and its button text. */
  datatype ChoiceForm = ChoiceForm(target: string, key: int, buttonText: string)

  /** The URL a form posts to: its target, `/`, and the key in decimal. */
  function Action(form: ChoiceForm): string
  {
    form.target + "/" + IntToDecimal(form.key)
  }

  /** The button text of a preference: an authenticator app, or the delivery
      destination of a sent code. */
  function ChoiceLabel(p: Pref): string
  {
    if p.isKey then AUTHENTICATOR_APP_LABEL else SEND_CODE_LABEL + p.data
  }

  /** The form for preference `key`, posting under the choice URL. */
  function FormFor(contextPath: string, choiceUrl: Option<string>, key: int, p: Pref): ChoiceForm
  {
    ChoiceForm(contextPath + StringOf(choiceUrl), key, ChoiceLabel(p))
  }

  /** Forms under one target with different keys post to different URLs. */
  lemma {:induction false} ActionsDistinct(f1: ChoiceForm, f2: ChoiceForm)
    requires f1.target == f2.target && f1.key != f2.key
    ensures Action(f1) != Action(f2)
  {
    var prefix := f1.target + "/";
    if Action(f1) == Action(f2) {
      assert Action(f1)[|prefix|..] == IntToDecimal(f1.key);
      assert Action(f2)[|prefix|..] == IntToDecimal(f2.key);
      IntToDecimalInjective(f1.key, f2.key);
    }
  }

  /** The forms of a choice page for `preferences`: exactly one per key, in
      some order. */
  predicate IsChoicePage(forms: seq<ChoiceForm>, contextPath: string, choiceUrl: Option<string>, preferences: map<int, Pref>)
  {
    && |forms| == |preferences.Keys|
    && Covers(forms, contextPath, choiceUrl, preferences, preferences.Keys)
    && (forall j :: 0 <= j < |forms| ==>
          forms[j].key in preferences && forms[j] == FormFor(contextPath, choiceUrl, forms[j].key, preferences[forms[j].key]))
    && KeysDistinct(forms)
  }

  /** No two forms carry the same key. */
  predicate KeysDistinct(forms: seq<ChoiceForm>)
  {
    forall i, j :: 0 <= i < j < |forms| ==> forms[i].key != forms[j].key
  }

  /** Every form is the form of its own key, a key of `preferences` that is
      no longer `remaining`. */
  predicate FormsOutside(forms: seq<ChoiceForm>, contextPath: string, choiceUrl: Option<string>, preferences: map<int, Pref>, remaining: set<int>)
  {
    forall j :: 0 <= j < |forms| ==>
      && forms[j].key in preferences && forms[j].key !in remaining
      && forms[j] == FormFor(contextPath, choiceUrl, forms[j].key, preferences[forms[j].key])
  }

  /** Appending the form of a remaining key, and taking that key out of the
      remaining ones, keeps the forms well placed and their keys distinct. */
  lemma {:induction false} AppendedFormKeepsKeysDistinct(forms: seq<ChoiceForm>, form: ChoiceForm, contextPath: string, choiceUrl: Option<string>,
                                                         preferences: map<int, Pref>, remaining: set<int>)
    requires FormsOutside(forms, contextPath, choiceUrl, preferences, remaining) && KeysDistinct(forms)
    requires form.key in remaining && form.key in preferences
    requires form == FormFor(contextPath, choiceUrl, form.key, preferences[form.key])
    ensures FormsOutside(forms + [form], contextPath, choiceUrl, preferences, remaining - {form.key})
    ensures KeysDistinct(forms + [form])
  {
    var extended := forms + [form];
    forall j | 0 <= j < |extended|
      ensures && extended[j].key in preferences && extended[j].key !in remaining - {form.key}
              && extended[j] == FormFor(contextPath, choiceUrl, extended[j].key, preferences[extended[j].key])
    {
      if j < |forms| {
        assert extended[j] == forms[j];
      }
    }
    forall i, j | 0 <= i < j < |extended|
      ensures extended[i].key != extended[j].key
    {
      if j < |forms| {
        assert extended[i] == forms[i] && extended[j] == forms[j];
      } else {
        assert extended[i] == forms[i];
      }
    }
  }

  /** Every key of `done` has its form somewhere in `forms`. */
  predicate Covers(forms: seq<ChoiceForm>, contextPath: string, choiceUrl: Option<string>, preferences: map<int, Pref>, done: set<int>)
    requires done <= preferences.Keys
  {
    forall k :: k in done ==>
      exists j :: 0 <= j < |forms| && forms[j] == FormFor(contextPath, choiceUrl, k, preferences[k])
  }

  /** Appending the form of one more key extends the coverage by that key. */
  lemma {:induction false} AppendedFormCovers(forms: seq<ChoiceForm>, form: ChoiceForm, contextPath: string, choiceUrl: Option<string>,
                                              preferences: map<int, Pref>, done: set<int>)
    requires done <= preferences.Keys && form.key in preferences
    requires Covers(forms, contextPath, choiceUrl, preferences, done)
    requires form == FormFor(contextPath, choiceUrl, form.key, preferences[form.key])
    ensures Covers(forms + [form], contextPath, choiceUrl, preferences, done + {form.key})
  {
    var extended := forms + [form];
    forall k | k in done + {form.key}
      ensures exists j :: 0 <= j < |extended| && extended[j] == FormFor(contextPath, choiceUrl, k, preferences[k])
    {
      if k == form.key {
        assert extended[|forms|] == FormFor(contextPath, choiceUrl, k, preferences[k]);
      } else {
        var j :| 0 <= j < |forms| && forms[j] == FormFor(contextPath, choiceUrl, k, preferences[k]);
        assert extended[j] == forms[j];
      }
    }
  }

  /** The forms of a choice page post to pairwise different URLs. */
  lemma ChoicePageActionsDistinct(forms: seq<ChoiceForm>, contextPath: string, choiceUrl: Option<string>, preferences: map<int, Pref>)
    requires IsChoicePage(forms, contextPath, choiceUrl, preferences)
    ensures forall i, j :: 0 <= i < j < |forms| ==> Action(forms[i]) != Action(forms[j])
  {
    forall i, j | 0 <= i < j < |forms|
      ensures Action(forms[i]) != Action(forms[j])
    {
      ActionsDistinct(forms[i], forms[j]);
    }
  }

  /** A set of keys without a member is empty (extensionality, spelled out
      so that a member of a non-empty set can be chosen). */
  lemma NoMemberIsEmpty(keys: set<int>)
    requires forall k :: k !in keys
    ensures keys == {}
  {
    assert forall k :: k in keys <==> k in {};
  }

  /** What the filter does with a request. */
  datatype ChoiceResponse = RedirectTo(url: Option<string>) | WritePage(forms: seq<ChoiceForm>) | PassToChain

  class DefaultTwoFactorChoiceGeneratingFilter {
    const choiceUrl: Option<string>
    const loginPageUrl: Option<string>
    const failureUrl: Option<string>
    const codeService: TwoFactorAuthCodeServiceImpl
    const userDetailsService: UserDetailsService

    constructor (choiceUrl: Option<string>, loginPageUrl: Option<string>, failureUrl: Option<string>,
                 codeService: TwoFactorAuthCodeServiceImpl, userDetailsService: UserDetailsService)
      ensures this.choiceUrl == choiceUrl && this.loginPageUrl == loginPageUrl && this.failureUrl == failureUrl
      ensures this.codeService == codeService && this.userDetailsService == userDetailsService
    {
      this.choiceUrl := choiceUrl;
      this.loginPageUrl := loginPageUrl;
      this.failureUrl := failureUrl;
      this.codeService := codeService;
      this.userDetailsService := userDetailsService;
    }

    /** `doFilter`: on the choice or failure URL, the user named by the
        session's attempt gets the choice page, whether or not the attempt
        has expired; a missing attempt or unknown user redirects to the
        login page. Other requests pass on untouched. */
    method DoFilter(request: Request) returns (response: ChoiceResponse)
      ensures !Matches(request, choiceUrl) && !Matches(request, failureUrl) ==> response == PassToChain
      ensures Matches(request, choiceUrl) || Matches(request, failureUrl) ==>
                var attempt := Lookup(codeService.repository.signInAttempts, request.sessionId);
                && (attempt.None? ==> response == RedirectTo(loginPageUrl))
                && (attempt.Some? && attempt.value.username !in userDetailsService ==> response == RedirectTo(loginPageUrl))
                && (attempt.Some? && attempt.value.username in userDetailsService ==>
                      && response.WritePage?
                      && IsChoicePage(response.forms, request.contextPath, choiceUrl,
                                      userDetailsService[attempt.value.username].preferences))
    {
      var loginError := Matches(request, failureUrl);
      if Matches(request, choiceUrl) || loginError {
        var username := codeService.GetUsernameFromSessionId(request.sessionId);
        if username.Failure? {
          return RedirectTo(loginPageUrl);
        }
        var details := LoadUserByUsername(userDetailsService, username.value);
        if details.Failure? {
          return RedirectTo(loginPageUrl);
        }
        var forms := GenerateTwoFactorChoicePage(request, details.value, loginError);
        return WritePage(forms);
      }
      response := PassToChain;
    }

    /** `generateTwoFactorChoicePage`: one form per preference key, in the
        map's iteration order (any order); `isError` is not used. */
    method GenerateTwoFactorChoicePage(request: Request, userDetails: UserDetails, isError: bool)
      returns (forms: seq<ChoiceForm>)
      ensures IsChoicePage(forms, request.contextPath, choiceUrl, userDetails.preferences)
    {
      var contextPath := request.contextPath;
      var preferences := userDetails.preferences;
      forms := [];
      var remaining := preferences.Keys;
      while remaining != {}
        invariant remaining <= preferences.Keys
        invariant |forms| + |remaining| == |preferences.Keys|
        invariant Covers(forms, contextPath, choiceUrl, preferences, preferences.Keys - remaining)
        invariant FormsOutside(forms, contextPath, choiceUrl, preferences, remaining)
        invariant KeysDistinct(forms)
        decreases |remaining|
      {
        if forall k :: k !in remaining {
          NoMemberIsEmpty(remaining);
        }
        var i :| i in remaining;
        var p := preferences[i];
        var name := if p.isKey then AUTHENTICATOR_APP_LABEL else SEND_CODE_LABEL + p.data;
        var form := ChoiceForm(contextPath + StringOf(choiceUrl), i, name);
        AppendedFormCovers(forms, form, contextPath, choiceUrl, preferences, preferences.Keys - remaining);
        AppendedFormKeepsKeysDistinct(forms, form, contextPath, choiceUrl, preferences, remaining);
        assert preferences.Keys - (remaining - {i}) == (preferences.Keys - remaining) + {i};
        forms := forms + [form];
        remaining := remaining - {i};
      }
    }
  }
}
