/** One in-progress second-factor challenge: an immutable record of the
    session, the delivered code (absent on the authenticator-app path), the
    user and the creation instant in epoch milliseconds. */
module Attempts {
  import opened Lang
  import opened Text

  /** A requested session id; `None` is a request without one (Java null). */
  type SessionId = Option<string>

  /** The constructor's arguments, stored unchanged; every field is final, so
      a value of this datatype is the whole state of an attempt. */
  datatype SignInAttempt = SignInAttempt(
    sessionId: SessionId,
    twoFactorCode: Option<string>,
    username: string,
    time: int)
  {
    /** `getTwoFactorCode`: the stored code trimmed, or null when none was stored. */
    function GetTwoFactorCode(): (r: Option<string>)
      ensures r.None? <==> twoFactorCode.None?
      ensures r.Some? ==> r.value == Trim(twoFactorCode.value)
      ensures r.Some? ==> r.value == [] || (!Blank(r.value[0]) && !Blank(r.value[|r.value| - 1]))
    {
      if twoFactorCode.Some? then Some(Trim(twoFactorCode.value)) else None
    }
  }

  /** Reading the code twice gives the same trimmed value: the trimmed code
      has no surrounding blanks left to remove. */
  lemma GetTwoFactorCodeStable(a: SignInAttempt)
    requires a.twoFactorCode.Some?
    ensures a.GetTwoFactorCode().Some?
    ensures Trim(a.GetTwoFactorCode().value) == a.GetTwoFactorCode().value
  {
    TrimIdempotent(a.twoFactorCode.value);
  }

  /** Blanks around the stored code never reach the caller. */
  lemma {:induction false} StoredCodePaddingIgnored(sessionId: SessionId, pre: string, code: string, post: string, username: string, time: int)
    requires forall k :: 0 <= k < |pre| ==> Blank(pre[k])
    requires forall k :: 0 <= k < |post| ==> Blank(post[k])
    ensures SignInAttempt(sessionId, Some(pre + code + post), username, time).GetTwoFactorCode()
         == SignInAttempt(sessionId, Some(code), username, time).GetTwoFactorCode()
  {
    TrimIgnoresBlankPadding(pre, code, post);
  }
}
