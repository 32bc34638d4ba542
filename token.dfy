/** Authentication tokens: the value the authentication manager passes
    around, and the two-factor token whose authenticated flag can only be
    cleared once the token is pending. */
module Tokens {
  import opened Lang
  import opened Users

  /** What a token carries as principal: a plain name (the session id on the
      code-submission path, possibly null) or a loaded user. */
  datatype Principal = Name(name: Option<string>) | User(details: UserDetails)

  /** The concrete token class, which `supports` compares exactly. */
  datatype TokenKind = UsernamePasswordToken | TwoFactorToken | OtherToken(className: string)

  /** The observable state of an `Authentication`. */
  datatype Authentication = Authentication(
    kind: TokenKind,
    principal: Principal,
    credentials: Option<string>,
    authorities: seq<Authority>,
    authenticated: bool)

  const CANNOT_AUTHENTICATE: string :=
    "You cannot set this token to authenticated. Use the authorities constructor instead."

  /** One `setAuthenticated(requested)` call on a token whose flag is `flag`:
      the new flag and whether the call threw. A pending token refuses every
      request, `false` included; an authenticated one takes the requested value. */
  function SetAuthenticatedStep(flag: bool, requested: bool): (r: (bool, Outcome<Exception>))
    ensures !flag ==> !r.0 && r.1 == Fail(IllegalState(CANNOT_AUTHENTICATE))
    ensures flag ==> r.0 == requested && r.1 == Pass
  {
    if !flag then (flag, Fail(IllegalState(CANNOT_AUTHENTICATE))) else (requested, Pass)
  }

  /** The flag after a sequence of `setAuthenticated` calls, the caller
      carrying on after each refusal. */
  function FlagAfter(flag: bool, requests: seq<bool>): bool
  {
    if requests == [] then flag
    else FlagAfter(SetAuthenticatedStep(flag, requests[0]).0, requests[1..])
  }

  /** No sequence of calls turns a pending token into an authenticated one. */
  lemma {:induction false} PendingStaysPending(requests: seq<bool>)
    ensures !FlagAfter(false, requests)
  {
    if requests != [] {
      PendingStaysPending(requests[1..]);
    }
  }

  /** An authenticated token stays authenticated exactly as long as every
      call asks for `true`: once cleared, the flag never comes back. */
  lemma {:induction false} AuthenticatedUntilCleared(requests: seq<bool>)
    ensures FlagAfter(true, requests) <==> forall i :: 0 <= i < |requests| ==> requests[i]
  {
    if requests != [] {
      AuthenticatedUntilCleared(requests[1..]);
      if !requests[0] {
        PendingStaysPending(requests[1..]);
      } else {
        assert forall i :: 1 <= i < |requests| ==> requests[i] == requests[1..][i - 1];
      }
    }
  }

  class TwoFactorAuthenticationToken {
    const principal: Principal
    const credential: Option<string>
    const confirmed2FACode: Option<string>
    const authorities: seq<Authority>
    /** The flag the superclass keeps. */
    var authenticated: bool

    /** The authorities constructor: the only way to obtain an authenticated token. */
    constructor WithAuthorities(principal: Principal, credential: Option<string>, authorities: seq<Authority>)
      ensures Snapshot() == Authentication(TwoFactorToken, principal, credential, authorities, true)
      ensures confirmed2FACode.None?
    {
      this.principal := principal;
      this.credential := credential;
      this.authorities := authorities;
      confirmed2FACode := None;
      authenticated := true;
    }

    /** The code constructor: a pending token with no authorities. */
    constructor WithCode(principal: Principal, credential: Option<string>, code: Option<string>)
      ensures Snapshot() == Authentication(TwoFactorToken, principal, credential, [], false)
      ensures confirmed2FACode == code
    {
      this.principal := principal;
      this.credential := credential;
      this.authorities := [];
      confirmed2FACode := code;
      authenticated := false;
    }

    /** The two-argument constructor: a pending token with no authorities. */
    constructor (principal: Principal, credential: Option<string>)
      ensures Snapshot() == Authentication(TwoFactorToken, principal, credential, [], false)
      ensures confirmed2FACode.None?
    {
      this.principal := principal;
      this.credential := credential;
      this.authorities := [];
      confirmed2FACode := None;
      authenticated := false;
    }

    /** The token as an `Authentication` value. */
    function Snapshot(): Authentication
      reads this
    {
      Authentication(TwoFactorToken, principal, credential, authorities, authenticated)
    }

    method GetCredentials() returns (c: Option<string>)
      ensures c == Snapshot().credentials
    {
      c := credential;
    }

    method GetPrincipal() returns (p: Principal)
      ensures p == Snapshot().principal
    {
      p := principal;
    }

    /** `setAuthenticated`: refused with `IllegalStateException` while the
        token is pending, leaving it pending; otherwise the flag takes the
        requested value. Nothing but the flag changes. */
    method SetAuthenticated(requested: bool) returns (r: Outcome<Exception>)
      modifies this
      ensures (authenticated, r) == SetAuthenticatedStep(old(authenticated), requested)
    {
      if !authenticated {
        return Fail(IllegalState(CANNOT_AUTHENTICATE));
      }
      authenticated := requested;
      r := Pass;
    }
  }
}
