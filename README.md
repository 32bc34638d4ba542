# Two-factor sign-in for Spring Security, modelled in Dafny

This project models the two-factor sign-in lifecycle that the
bensiegler/spring-security fork adds to Spring Security, and proves
properties of it.

The lifecycle runs in four stages:

- **Step one.** A username and password are checked by the authentication
  manager. A user with two factors enabled is sent to a choice page.
- **The sign-in attempt.** An in-memory store keeps one attempt per HTTP
  session. An attempt records the session id, the delivered code (absent
  when an authenticator app is used), the username and the creation instant.
  Step one counts as complete while the session's attempt is stored and not
  expired. The expiry window defaults to 90 000 ms.
- **Step two.** A code submission is decided by the two-factor provider:
  - a delivered code must equal the stored one after trimming, and must not
    be expired;
  - an authenticator-app code must be a TOTP code for the current 30-second
    step or one of the two before it, for every key preference of the user.
  - On success the filter removes the attempt and returns an authenticated
    token.
- **The choice page.** A separate filter renders one form per registered
  preference of the attempt's user.

## How the model is built

- Classes whose fields the source updates in place are Dafny classes with
  `modifies` clauses:
  - the attempt store `InMemoryTwoFactorAuthCodeRepository`;
  - the code service;
  - the preference object;
  - the token's authenticated flag;
  - the two filters' configuration.
- Values are datatypes:
  - `SignInAttempt` (all its fields are final);
  - `UserDetails`;
  - `Authentication`;
  - requests;
  - the effects a filter has on the response.
- Java `null` is `Option.None`.
- A thrown exception is the `Failure`/`Fail`/`Threw` case of a result, tagged
  with the exception's class and message.

Operations with loops are methods proved against specification functions:

- `CodeGeneration.GenerateCode` (six random digits) is proved against `CodeOf`.
- `Totp.TotpService.GenerateCode` (dynamic truncation over four hash bytes) is
  proved against `TotpCode`.
- `ChoiceFilter.DefaultTwoFactorChoiceGeneratingFilter.GenerateTwoFactorChoicePage`
  (one form per preference key) is proved against `IsChoicePage`.

The provider's `authenticate` and the URL matcher of the choice filter are
functions. The provider also writes nothing, which is why it can be a
function.

Everything outside the program is a parameter:

- The clock is an `int` of epoch milliseconds. One request is decided at one
  instant.
- `Math.random()` is the sequence of draws it would return.
- HMAC-SHA1 and Base32 decoding are the two function fields of
  `Totp.Crypto`. HMAC-SHA1 yields 20 bytes.
- The step-one authentication manager is a function from username and
  password to a result.
- Whether the send strategy throws is a per-call boolean.
- The request matchers of the main filter are given as their answers for the
  request.

## Model

| member | source | states |
|---|---|---|
| Text.Trim | web/src/main/java/org/springframework/security/web/authentication/twofa/dtos/SignInAttempt.java:24 | `String.trim`: the result is the input with its blank prefix and blank suffix cut off, and it neither starts nor ends with a blank |
| Text.TrimIdempotent | web/src/main/java/org/springframework/security/web/authentication/twofa/dtos/SignInAttempt.java:24 | trimming twice is trimming once |
| Text.TrimIgnoresBlankPadding | web/src/main/java/org/springframework/security/web/authentication/TwoFactorAuthenticationProvider.java:48 | blanks added before and after a string do not change its trimmed form |
| Text.IndexOf | web/src/main/java/org/springframework/security/web/authentication/ui/DefaultTwoFactorChoiceGeneratingFilter.java:84 | `indexOf`: -1 exactly when the character is absent; otherwise an index holding it with no earlier occurrence |
| Text.NatToDecimal | web/src/main/java/org/springframework/security/web/authentication/twofa/services/TotpService.java:69 | decimal rendering: at least one digit, no leading zero, and the digits denote the number |
| Text.IntToDecimalInjective | web/src/main/java/org/springframework/security/web/authentication/ui/DefaultTwoFactorChoiceGeneratingFilter.java:126-127 | different integers render as different strings |
| Text.IntToDecimal | web/src/main/java/org/springframework/security/web/authentication/ui/DefaultTwoFactorChoiceGeneratingFilter.java:126-127 | the key as string concatenation renders it: the decimal digits of a non-negative key, a minus sign before those of a negative one |
| Text.PadLeft | web/src/main/java/org/springframework/security/web/authentication/twofa/services/TotpService.java:69 | `%0Nd` padding: the width is the larger of N and the length, the string is at the end, and only zeros come before it |
| Text.LeadingZerosKeepValue | web/src/main/java/org/springframework/security/web/authentication/twofa/services/TotpService.java:69 | leading zeros do not change the number a digit string denotes |
| Attempts.SignInAttempt.GetTwoFactorCode | web/src/main/java/org/springframework/security/web/authentication/twofa/dtos/SignInAttempt.java:22-28 | null exactly when no code was stored; otherwise the stored code trimmed, with no blank at either end |
| Attempts.GetTwoFactorCodeStable | web/src/main/java/org/springframework/security/web/authentication/twofa/dtos/SignInAttempt.java:22-28 | trimming the returned code again leaves it unchanged, so the provider's comparison of two trimmed strings is well founded |
| Attempts.StoredCodePaddingIgnored | web/src/main/java/org/springframework/security/web/authentication/twofa/dtos/SignInAttempt.java:15-28 | two attempts whose stored codes differ only in surrounding blanks return the same code |
| Preferences.TwoFactorPreference.constructor | core/src/main/java/org/springframework/security/core/userdetails/TwoFactorPreference.java:11-14 | the preference holds the given key flag and data |
| Preferences.TwoFactorPreference.IsKey | core/src/main/java/org/springframework/security/core/userdetails/TwoFactorPreference.java:16-18 | returns the current key flag |
| Preferences.TwoFactorPreference.GetData | core/src/main/java/org/springframework/security/core/userdetails/TwoFactorPreference.java:24-26 | returns the current data |
| Preferences.TwoFactorPreference.SetKey | core/src/main/java/org/springframework/security/core/userdetails/TwoFactorPreference.java:20-22 | the flag takes the new value and the data is unchanged |
| Preferences.TwoFactorPreference.SetData | core/src/main/java/org/springframework/security/core/userdetails/TwoFactorPreference.java:28-30 | the data takes the new value and the flag is unchanged |
| Users.LoadUserByUsername | web/src/main/java/org/springframework/security/web/authentication/TwoFactorAuthenticationProvider.java:35 | succeeds exactly for a known user and returns that user; otherwise `UsernameNotFoundException`, which is an authentication exception |
| Repository.Lookup | web/src/main/java/org/springframework/security/web/authentication/twofa/repositories/InMemoryTwoFactorAuthCodeRepository.java:19-25 | a null session id gives null; otherwise the stored attempt, or null when there is none |
| Repository.InMemoryTwoFactorAuthCodeRepository.constructor | web/src/main/java/org/springframework/security/web/authentication/twofa/repositories/InMemoryTwoFactorAuthCodeRepository.java:11 | a new store is empty |
| Repository.InMemoryTwoFactorAuthCodeRepository.InsertCode | web/src/main/java/org/springframework/security/web/authentication/twofa/repositories/InMemoryTwoFactorAuthCodeRepository.java:14-16 | the attempt is stored under its session id (null included), replacing any earlier one; nothing else changes |
| Repository.InMemoryTwoFactorAuthCodeRepository.GetCode | web/src/main/java/org/springframework/security/web/authentication/twofa/repositories/InMemoryTwoFactorAuthCodeRepository.java:19-25 | returns what `Lookup` gives for the current contents; a result is a stored attempt of a non-null session |
| Repository.InMemoryTwoFactorAuthCodeRepository.RemoveCode | web/src/main/java/org/springframework/security/web/authentication/twofa/repositories/InMemoryTwoFactorAuthCodeRepository.java:33-35 | exactly the session's entry is removed; an absent session is ignored |
| Repository.InMemoryTwoFactorAuthCodeRepository.RemoveAttempt | web/src/main/java/org/springframework/security/web/authentication/twofa/repositories/InMemoryTwoFactorAuthCodeRepository.java:28-30 | the same as removing by the attempt's session id |
| Repository.GetAfterInsert | web/src/main/java/org/springframework/security/web/authentication/twofa/repositories/InMemoryTwoFactorAuthCodeRepository.java:14-25 | after inserting an attempt for a non-null session, looking that session up returns the attempt |
| Repository.OtherSessionsUnchanged | web/src/main/java/org/springframework/security/web/authentication/twofa/repositories/InMemoryTwoFactorAuthCodeRepository.java:14-35 | inserting for one session or removing another leaves every other session's lookup unchanged |
| Repository.RemoveIsIdempotent | web/src/main/java/org/springframework/security/web/authentication/twofa/repositories/InMemoryTwoFactorAuthCodeRepository.java:33-35 | after a removal the session has no attempt, and a second removal changes nothing |
| Repository.InsertReplaces | web/src/main/java/org/springframework/security/web/authentication/twofa/repositories/InMemoryTwoFactorAuthCodeRepository.java:14-16 | a second insert for the same session replaces the first, so a session has at most one attempt |
| CodeGeneration.DigitOf | web/src/main/java/org/springframework/security/web/authentication/twofa/stategies/codegeneration/SixDigitAuthCodeGenerationStrategy.java:9 | `(int) (r * 10)` for a draw in [0, 1) is the digit d with d <= 10r < d + 1 |
| CodeGeneration.CodeOf | web/src/main/java/org/springframework/security/web/authentication/twofa/stategies/codegeneration/SixDigitAuthCodeGenerationStrategy.java:5-14 | one digit character per draw |
| CodeGeneration.GenerateCode | web/src/main/java/org/springframework/security/web/authentication/twofa/stategies/codegeneration/SixDigitAuthCodeGenerationStrategy.java:5-14 | the loop yields the digits of the first six draws: six digit characters (the other strategy class is identical) |
| CodeGeneration.EveryCodeReachable | web/src/main/java/org/springframework/security/web/authentication/twofa/stategies/codegeneration/TwoFactorAuthCodeGenerationStrategyImpl.java:6-15 | every digit string is produced by some draws, so each six-digit code can come out |
| CodeService.TwoFactorAuthCodeServiceImpl.constructor | web/src/main/java/org/springframework/security/web/authentication/twofa/services/TwoFactorAuthCodeServiceImpl.java:14-24 | the given store, the six-digit strategy and a 90 000 ms window |
| CodeService.TwoFactorAuthCodeServiceImpl.GenerateCode | web/src/main/java/org/springframework/security/web/authentication/twofa/services/TwoFactorAuthCodeServiceImpl.java:27-29 | the strategy's code for the draws; the store is not touched |
| CodeService.TwoFactorAuthCodeServiceImpl.SaveAttempt | web/src/main/java/org/springframework/security/web/authentication/twofa/services/TwoFactorAuthCodeServiceImpl.java:31-36 | returns the attempt built from session, code, user and now, and stores it under the session |
| CodeService.TwoFactorAuthCodeServiceImpl.GetCode | web/src/main/java/org/springframework/security/web/authentication/twofa/services/TwoFactorAuthCodeServiceImpl.java:39-41 | the store's answer for the session |
| CodeService.TwoFactorAuthCodeServiceImpl.CleanUp | web/src/main/java/org/springframework/security/web/authentication/twofa/services/TwoFactorAuthCodeServiceImpl.java:44-46 | exactly the session's attempt is removed |
| CodeService.TwoFactorAuthCodeServiceImpl.SetCodeRepository | web/src/main/java/org/springframework/security/web/authentication/twofa/services/TwoFactorAuthCodeServiceImpl.java:49-51 | the store is replaced; strategy and window are unchanged |
| CodeService.TwoFactorAuthCodeServiceImpl.SetCodeGenerationStrategy | web/src/main/java/org/springframework/security/web/authentication/twofa/services/TwoFactorAuthCodeServiceImpl.java:54-56 | the strategy is replaced; store and window are unchanged |
| CodeService.TwoFactorAuthCodeServiceImpl.SetExpirationTime | web/src/main/java/org/springframework/security/web/authentication/twofa/services/TwoFactorAuthCodeServiceImpl.java:59-61 | the window is replaced; store and strategy are unchanged |
| CodeService.TwoFactorAuthCodeServiceImpl.GetUsernameFromSessionId | web/src/main/java/org/springframework/security/web/authentication/twofa/services/TwoFactorAuthCodeServiceImpl.java:64-66 | the stored attempt's username, expired or not; `NullPointerException` when the session has no attempt |
| CodeService.TwoFactorAuthCodeServiceImpl.IsCodeExpired | web/src/main/java/org/springframework/security/web/authentication/twofa/services/TwoFactorAuthCodeServiceImpl.java:83-85 | expired exactly when creation time plus window is strictly before now |
| CodeService.TwoFactorAuthCodeServiceImpl.IsStepOneComplete | web/src/main/java/org/springframework/security/web/authentication/twofa/services/TwoFactorAuthCodeServiceImpl.java:69-77 | true exactly when the session has a stored attempt that is not expired |
| CodeService.ExpiryBoundary | web/src/main/java/org/springframework/security/web/authentication/twofa/services/TwoFactorAuthCodeServiceImpl.java:83-85 | an attempt is valid at creation time plus window and expired one millisecond later, and once expired it stays expired |
| CodeService.SavedAttemptCompletesStepOne | web/src/main/java/org/springframework/security/web/authentication/twofa/services/TwoFactorAuthCodeServiceImpl.java:31-77 | with a non-negative window, a saved attempt completes step one from its creation until its window has passed |
| CodeService.CleanUpEndsStepOne | web/src/main/java/org/springframework/security/web/authentication/twofa/services/TwoFactorAuthCodeServiceImpl.java:44-77 | after clean-up the session has no attempt and step one is incomplete at every instant; a second clean-up changes nothing |
| CodeService.StepOneLifecycle | web/src/main/java/org/springframework/security/web/authentication/twofa/services/TwoFactorAuthCodeServiceImpl.java:69-85 | step one is incomplete before the save, complete after it, and incomplete again once the window has passed, with no deletion |
| Totp.ToBigEndian | web/src/main/java/org/springframework/security/web/authentication/twofa/services/TotpService.java:88-92 | the big-endian encoding has exactly the requested number of bytes |
| Totp.BigEndianRoundTrip | web/src/main/java/org/springframework/security/web/authentication/twofa/services/TotpService.java:88-97 | decoding the big-endian encoding of a value that fits gives the value back |
| Totp.BigEndianBound | web/src/main/java/org/springframework/security/web/authentication/twofa/services/TotpService.java:94-97 | n big-endian bytes denote a value below 256^n |
| Totp.LongToBytes | web/src/main/java/org/springframework/security/web/authentication/twofa/services/TotpService.java:88-92 | eight bytes holding the two's-complement form of the long, and reading them back as signed gives the long |
| Totp.GenerateHash | web/src/main/java/org/springframework/security/web/authentication/twofa/services/TotpService.java:72-78 | HMAC-SHA1 keyed by the Base32-decoded secret over the eight big-endian bytes of the step: a 20-byte digest (the one-byte fallback is left out) |
| Totp.BytesToInt | web/src/main/java/org/springframework/security/web/authentication/twofa/services/TotpService.java:94-97 | `BufferUnderflowException` exactly when fewer than four bytes are given; otherwise a 32-bit int whose bits are the first four bytes |
| Totp.Offset | web/src/main/java/org/springframework/security/web/authentication/twofa/services/TotpService.java:60 | the low nibble of the last hash byte is at most 15, so the four bytes read from it lie inside the 20-byte hash |
| Totp.DynamicTruncation | web/src/main/java/org/springframework/security/web/authentication/twofa/services/TotpService.java:59-67 | the four bytes at the offset, with the sign bit masked off, are below 2^31 |
| Totp.TruncationIsMaskedInt | web/src/main/java/org/springframework/security/web/authentication/twofa/services/TotpService.java:59-67 | the truncated value is the signed int read from the offset, masked with 0x7FFFFFFF |
| Totp.ShiftOrIsMultiplyAdd | web/src/main/java/org/springframework/security/web/authentication/twofa/services/TotpService.java:63-64 | on 64-bit words, shifting left by 8 and or-ing in a byte is multiplying by 256 and adding, while the value stays small |
| Totp.MaskIsRemainder | web/src/main/java/org/springframework/security/web/authentication/twofa/services/TotpService.java:67 | masking a 64-bit word with 0x7FFFFFFF is the remainder modulo 2^31 |
| Totp.HotpValue | web/src/main/java/org/springframework/security/web/authentication/twofa/services/TotpService.java:67-68 | the truncated value reduced modulo 10^codeLength is below both 10^codeLength and 2^31 |
| Totp.CodeShape | web/src/main/java/org/springframework/security/web/authentication/twofa/services/TotpService.java:57-70 | the corrected code has exactly codeLength characters, all digits, denoting the truncated value modulo 10^codeLength |
| Totp.TotpCodeAsWritten | web/src/main/java/org/springframework/security/web/authentication/twofa/services/TotpService.java:57-69 | the program's code: the HOTP value reduced modulo 10^codeLength, zero-padded to six characters whatever codeLength is; all digits, at least six of them, denoting the HOTP value |
| Totp.AsWrittenPaddingIgnoresCodeLength | web/src/main/java/org/springframework/security/web/authentication/twofa/services/TotpService.java:69 | as written, with a code length from 1 to 5 the code is still six characters long, so it differs from the intended code |
| Totp.AsWrittenDropsLeadingZeros | web/src/main/java/org/springframework/security/web/authentication/twofa/services/TotpService.java:69 | as written, with a code length above 6 and a value below 10^6, the code has six characters and differs from the intended code |
| Totp.DefaultLengthAgrees | web/src/main/java/org/springframework/security/web/authentication/twofa/services/TotpService.java:25-33 | with the default length 6 the code as written and the corrected code are the same |
| Totp.Interval | web/src/main/java/org/springframework/security/web/authentication/twofa/services/TotpService.java:41 | the current step, and the step two before it, are values of type long |
| Totp.IntervalBracketsNow | web/src/main/java/org/springframework/security/web/authentication/twofa/services/TotpService.java:41 | for a non-negative clock the current 30-second step starts at or before now and ends after it |
| Totp.CodeIsTrimmed | web/src/main/java/org/springframework/security/web/authentication/twofa/services/TotpService.java:39-43 | a generated code has no blanks, so trimming leaves it unchanged |
| Totp.WindowCodesAccepted | web/src/main/java/org/springframework/security/web/authentication/twofa/services/TotpService.java:43-52 | the codes of the current step and of the two steps before it are all accepted |
| Totp.AcceptanceIgnoresPadding | web/src/main/java/org/springframework/security/web/authentication/twofa/services/TotpService.java:39 | blanks around a submitted code never change whether it is accepted |
| Totp.TotpService.constructor | web/src/main/java/org/springframework/security/web/authentication/twofa/services/TotpService.java:25-29 | the default code length is 6 |
| Totp.TotpService.WithCodeLength | web/src/main/java/org/springframework/security/web/authentication/twofa/services/TotpService.java:31-33 | the given code length |
| Totp.TotpService.GenerateCode | web/src/main/java/org/springframework/security/web/authentication/twofa/services/TotpService.java:57-70 | the four-byte loop computes the corrected TOTP code of the secret for the step (see Findings) |
| Totp.TotpService.ConfirmCode | web/src/main/java/org/springframework/security/web/authentication/twofa/services/TotpService.java:35-54 | a non-key preference fails with the `IllegalArgumentException` message; a null code gives `NullPointerException`; otherwise passes exactly when the trimmed code equals one of the three window codes (the corrected `codeLength`-digit codes, see Left out), and fails with "code was incorrect!" |
| Totp.DefaultLengthAcceptsAsWritten | web/src/main/java/org/springframework/security/web/authentication/twofa/services/TotpService.java:35-69 | at the default length 6 the window accepts exactly the trimmed codes the program formats itself, the three steps' six-character codes |
| Tokens.SetAuthenticatedStep | core/src/main/java/org/springframework/security/authentication/TwoFactorAuthenticationToken.java:47-53 | a pending token refuses every request, `false` included, and stays pending; an authenticated token takes the requested value |
| Tokens.PendingStaysPending | core/src/main/java/org/springframework/security/authentication/TwoFactorAuthenticationToken.java:47-53 | no sequence of calls makes a pending token authenticated |
| Tokens.AuthenticatedUntilCleared | core/src/main/java/org/springframework/security/authentication/TwoFactorAuthenticationToken.java:47-53 | an authenticated token is still authenticated after a sequence of calls exactly when every call asked for `true` |
| Tokens.TwoFactorAuthenticationToken.WithAuthorities | core/src/main/java/org/springframework/security/authentication/TwoFactorAuthenticationToken.java:17-22 | the only authenticated token: the given principal, credential and authorities, and no code |
| Tokens.TwoFactorAuthenticationToken.WithCode | core/src/main/java/org/springframework/security/authentication/TwoFactorAuthenticationToken.java:24-29 | a pending token with no authorities that records the code |
| Tokens.TwoFactorAuthenticationToken.constructor | core/src/main/java/org/springframework/security/authentication/TwoFactorAuthenticationToken.java:31-35 | a pending token with no authorities and no code |
| Tokens.TwoFactorAuthenticationToken.GetCredentials | core/src/main/java/org/springframework/security/authentication/TwoFactorAuthenticationToken.java:37-40 | the credential the token was built with |
| Tokens.TwoFactorAuthenticationToken.GetPrincipal | core/src/main/java/org/springframework/security/authentication/TwoFactorAuthenticationToken.java:42-45 | the principal the token was built with |
| Tokens.TwoFactorAuthenticationToken.SetAuthenticated | core/src/main/java/org/springframework/security/authentication/TwoFactorAuthenticationToken.java:47-53 | the new flag and the outcome are one `SetAuthenticatedStep` from the old flag |
| Provider.TwoFactorAuthenticationProvider.Authenticate | web/src/main/java/org/springframework/security/web/authentication/TwoFactorAuthenticationProvider.java:31-62 | a success is an authenticated two-factor token for the user of the session's stored attempt, with that user's authorities and null credentials |
| Provider.SupportsTwoFactorTokensOnly | web/src/main/java/org/springframework/security/web/authentication/TwoFactorAuthenticationProvider.java:65-71 | the provider supports the submission token and the token it issues, and not the username-password token |
| Provider.Supports | web/src/main/java/org/springframework/security/web/authentication/TwoFactorAuthenticationProvider.java:65-67 | exact equality with the two-factor token class (see `SupportsTwoFactorTokensOnly`) |
| Provider.NewTokenFor | web/src/main/java/org/springframework/security/web/authentication/TwoFactorAuthenticationProvider.java:69-71 | an authenticated two-factor token for the user, with null credentials and the user's authorities |
| Provider.NoAttemptNoAuthentication | web/src/main/java/org/springframework/security/web/authentication/TwoFactorAuthenticationProvider.java:34-35 | with no stored attempt the provider throws `NullPointerException` |
| Provider.DeliveredCodeDecision | web/src/main/java/org/springframework/security/web/authentication/TwoFactorAuthenticationProvider.java:46-57 | with a delivered code: success exactly when the trimmed submission equals the stored code and the attempt is not expired; a mismatch is "invalid code" at any instant; a match after expiry is "code is expired" |
| Provider.PaddedDeliveredCodeAccepted | web/src/main/java/org/springframework/security/web/authentication/TwoFactorAuthenticationProvider.java:48 | the stored code with blanks around it is accepted within the window |
| Provider.TotpPathDecision | web/src/main/java/org/springframework/security/web/authentication/TwoFactorAuthenticationProvider.java:37-45 | with no delivered code: success exactly when every key preference of the user accepts the submission; any failure is "code was incorrect!" |
| Provider.NoKeyPreferenceBypass | web/src/main/java/org/springframework/security/web/authentication/TwoFactorAuthenticationProvider.java:37-61 | with no delivered code and no key preference, any submission, even null, authenticates the user |
| Provider.SoleKeyPreferenceAccepts | web/src/main/java/org/springframework/security/web/authentication/TwoFactorAuthenticationProvider.java:40-45 | the current-step code of a user's only key preference passes the loop over the preferences |
| Provider.SoleKeyCodeAuthenticates | web/src/main/java/org/springframework/security/web/authentication/TwoFactorAuthenticationProvider.java:37-61 | a user with one key preference is authenticated by that key's current-step code |
| Provider.StepOneGuardExcludesExpiry | web/src/main/java/org/springframework/security/web/authentication/TwoFactorAuthenticationProvider.java:49-50 | when step one is complete at the instant of the check, the provider never answers "code is expired" |
| AuthFilter.FormParameter | web/src/main/java/org/springframework/security/web/authentication/TwoFactorAuthenticationFilter.java:256-278 | the form value, or the empty string when the parameter is absent |
| AuthFilter.RequiresAuthenticationCases | web/src/main/java/org/springframework/security/web/authentication/TwoFactorAuthenticationFilter.java:128-149 | a resend always needs the filter; a login or code POST needs it; no other method or request does |
| AuthFilter.RequiresAuthentication | web/src/main/java/org/springframework/security/web/authentication/TwoFactorAuthenticationFilter.java:128-149 | a POST accepted by the login or code-submission matcher, or any request accepted by the resend matcher (see `RequiresAuthenticationCases`) |
| AuthFilter.TwoFactorAuthenticationFilter.constructor | web/src/main/java/org/springframework/security/web/authentication/TwoFactorAuthenticationFilter.java:36-67 | default form keys and URLs, and no user lookup, because the field is never assigned (see Findings) |
| AuthFilter.TwoFactorAuthenticationFilter.WithUserDetailsService | web/src/main/java/org/springframework/security/web/authentication/TwoFactorAuthenticationFilter.java:36-67 | the corrected construction: the same defaults, plus the user lookup of the resend branch |
| AuthFilter.TwoFactorAuthenticationFilter.AttemptAuthentication | web/src/main/java/org/springframework/security/web/authentication/TwoFactorAuthenticationFilter.java:104-120 | each branch's outcome, effects and new store: the login branch ends as the username-password login does, on the unchanged store; the code-submission and resend branches as in their own rows; anything else returns null. The store changes only after an authenticated success, by removing that session's attempt |
| AuthFilter.TwoFactorAuthenticationFilter.HandleUsernamePasswordLogin | web/src/main/java/org/springframework/security/web/authentication/TwoFactorAuthenticationFilter.java:166-200 | complete step one redirects to the choice page without checking credentials; otherwise the manager's exception propagates, a null principal passes the cast and fails with `NullPointerException`, any other non-user principal is a `ClassCastException`, a two-factor user is redirected with nothing saved, and any other user's authentication is returned |
| AuthFilter.LoginReturnsOnlySingleFactorUsers | web/src/main/java/org/springframework/security/web/authentication/TwoFactorAuthenticationFilter.java:166-200 | the login returns an authentication only when step one was incomplete, and only the manager's own answer for a user without two factors; a returned null comes with no effect or with the redirect to the choice page |
| AuthFilter.TwoFactorAuthenticationFilter.HandleTwoFactorAuthenticationLogin | web/src/main/java/org/springframework/security/web/authentication/TwoFactorAuthenticationFilter.java:219-240 | incomplete step one redirects to login; a provider success removes the attempt and returns the token; an authentication failure redirects to the failure URL and keeps the attempt; any other exception propagates |
| AuthFilter.TwoFactorAuthenticationFilter.SendCode | web/src/main/java/org/springframework/security/web/authentication/TwoFactorAuthenticationFilter.java:248-254 | the send strategy gets the user and attempt; the failure strategy gets the attempt exactly when sending fails |
| AuthFilter.TwoFactorAuthenticationFilter.SetUsernameFormKey | web/src/main/java/org/springframework/security/web/authentication/TwoFactorAuthenticationFilter.java:284-286 | only the username form key changes |
| AuthFilter.TwoFactorAuthenticationFilter.SetPasswordFormKey | web/src/main/java/org/springframework/security/web/authentication/TwoFactorAuthenticationFilter.java:292-294 | only the password form key changes |
| AuthFilter.TwoFactorAuthenticationFilter.SetTwoFactorAuthCodeFormKey | web/src/main/java/org/springframework/security/web/authentication/TwoFactorAuthenticationFilter.java:300-302 | only the code form key changes |
| AuthFilter.TwoFactorAuthenticationFilter.SetCodeService | web/src/main/java/org/springframework/security/web/authentication/TwoFactorAuthenticationFilter.java:304-306 | only the code service changes |
| AuthFilter.TwoFactorAuthenticationFilter.SetTwoFactorFailureUrl | web/src/main/java/org/springframework/security/web/authentication/TwoFactorAuthenticationFilter.java:316-318 | only the failure URL changes |
| AuthFilter.TwoFactorAuthenticationFilter.SetTwoFactorRedirectUrl | web/src/main/java/org/springframework/security/web/authentication/TwoFactorAuthenticationFilter.java:324-326 | only the redirect URL changes |
| AuthFilter.TwoFactorAuthenticationFilter.SetLoginRequestUrl | web/src/main/java/org/springframework/security/web/authentication/TwoFactorAuthenticationFilter.java:340-342 | only the login URL changes |
| AuthFilter.ResendAsWritten | web/src/main/java/org/springframework/security/web/authentication/TwoFactorAuthenticationFilter.java:109-113 | as written: a resend right after an attempt was saved throws `NullPointerException` instead of sending |
| AuthFilter.ResendCorrected | web/src/main/java/org/springframework/security/web/authentication/TwoFactorAuthenticationFilter.java:109-113 | corrected: the same resend hands the stored attempt and its user to the send strategy and returns null |
| AuthFilter.SubmitDeliveredCode | web/src/main/java/org/springframework/security/web/authentication/TwoFactorAuthenticationFilter.java:219-240 | submitting the stored digit code within its window returns the user's authenticated token and empties the store |
| AuthFilter.DeliveredCodeIsSingleUse | web/src/main/java/org/springframework/security/web/authentication/TwoFactorAuthenticationFilter.java:219-240 | a delivered code works once: the second identical submission is redirected to the login page |
| ChoiceFilter.Matches | web/src/main/java/org/springframework/security/web/authentication/ui/DefaultTwoFactorChoiceGeneratingFilter.java:79-96 | a match is a GET with a non-null URL whose effective URI equals the URL, after the context path when there is one |
| ChoiceFilter.MatchesWhenUriEqual | web/src/main/java/org/springframework/security/web/authentication/ui/DefaultTwoFactorChoiceGeneratingFilter.java:79-96 | the converse of `Matches`'s contract: a GET whose effective URI is the url, behind a non-empty context path, matches |
| ChoiceFilter.PathParametersIgnored | web/src/main/java/org/springframework/security/web/authentication/ui/DefaultTwoFactorChoiceGeneratingFilter.java:84-88 | path parameters after a non-empty path do not affect matching |
| ChoiceFilter.LeadingSemicolonKept | web/src/main/java/org/springframework/security/web/authentication/ui/DefaultTwoFactorChoiceGeneratingFilter.java:84-91 | a URI that starts with `;` is compared whole, followed by the query |
| ChoiceFilter.ContextPathPrefixesUrl | web/src/main/java/org/springframework/security/web/authentication/ui/DefaultTwoFactorChoiceGeneratingFilter.java:92-95 | with a context path, matching a URL is matching the context path followed by the URL with no context path |
| ChoiceFilter.QueryStringTakesPart | web/src/main/java/org/springframework/security/web/authentication/ui/DefaultTwoFactorChoiceGeneratingFilter.java:89-91 | with a query string present, a URL with no `?` never matches |
| ChoiceFilter.FailureUrlMatchesItsQuery | web/src/main/java/org/springframework/security/web/authentication/ui/DefaultTwoFactorChoiceGeneratingFilter.java:71-96 | the default failure URL `/2FA?error` matches a GET of `/2FA` with the query string `error`, and not one without a query string |
| ChoiceFilter.ActionsDistinct | web/src/main/java/org/springframework/security/web/authentication/ui/DefaultTwoFactorChoiceGeneratingFilter.java:126-127 | forms under one URL with different keys post to different URLs |
| ChoiceFilter.ChoicePageActionsDistinct | web/src/main/java/org/springframework/security/web/authentication/ui/DefaultTwoFactorChoiceGeneratingFilter.java:117-130 | the forms of a choice page post to pairwise different URLs |
| ChoiceFilter.DefaultTwoFactorChoiceGeneratingFilter.constructor | web/src/main/java/org/springframework/security/web/authentication/ui/DefaultTwoFactorChoiceGeneratingFilter.java:38-44 | the given URLs, code service and user lookup |
| ChoiceFilter.DefaultTwoFactorChoiceGeneratingFilter.DoFilter | web/src/main/java/org/springframework/security/web/authentication/ui/DefaultTwoFactorChoiceGeneratingFilter.java:51-77 | a request to neither URL passes down the chain; otherwise a missing attempt or unknown user redirects to the login page, and a known user gets the choice page, whether or not the attempt has expired |
| ChoiceFilter.DefaultTwoFactorChoiceGeneratingFilter.GenerateTwoFactorChoicePage | web/src/main/java/org/springframework/security/web/authentication/ui/DefaultTwoFactorChoiceGeneratingFilter.java:98-136 | one form per preference key, in any order: each key has its form, each form belongs to a key, and no key appears twice |

## Left out

- The servlet plumbing is not modelled:
  - the HTML text of the choice page, its content type and its length;
  - the filter chain;
  - the superclasses' success and failure handlers;
  - the `AuthenticationDetailsSource`.
  A response is modelled as the list of effects (redirect URL, send, send-failure), or as the forms of the page.
- The Ant-style request matchers of the main filter are given as their boolean answers. `setTwoFactorProcessingUrl` only replaces such a matcher, so it has no counterpart.
- The send strategy and the send-failure strategy are modelled only by a flag saying whether sending threw. The email and console strategies are out of scope, and so are `setSendStrategy` and `setSendFailureStrategy`.
- The database repository, the configurer and the service and repository interfaces are not part of this model. Only the in-memory store is modelled.
- There is no concurrency. The store is a plain map updated one request at a time.
- HMAC-SHA1 and Base32 are parameters, not implementations.
- `generateHash` falls back to a one-byte array when the key or algorithm is rejected. That fallback is not modelled: the hash always has 20 bytes. With one byte, the source would read past the array.
- `Math.pow` works in floating point. It is modelled as the exact integer power. The remainder is the same for every non-negative code length, because the truncated value is below 2^31.
- `Math.random` is given as its draws.
- Totp.TotpService.WithCodeLength: a negative code length is excluded by the `nat` type.
- Totp.TotpService.GenerateCode: pads the code to `codeLength` digits, the corrected format of the first Findings row, where the program pads to six characters. For a code length other than 6 it returns the corrected code, not the program's; `TotpCodeAsWritten` is the program's code.
- Totp.TotpService.ConfirmCode: compares against the corrected `codeLength`-digit codes. For a code length other than 6 it accepts and rejects different strings from the program: with length 4 and a value of 42, the program accepts "000042" and rejects "0042", and the model does the opposite. At the default length 6 both agree (`Totp.DefaultLengthAcceptsAsWritten`). The provider's authenticator-app path inherits this.
- The code service's null arguments are excluded by non-null types: the constructor's `Assert.notNull` on the repository and `saveAttempt`'s on the request (both `IllegalArgumentException`), and `setCodeRepository(null)`, which the source accepts and which fails later with `NullPointerException`.
- CodeService.Expired: the sum `time + window` is not wrapped to 64 bits. It can only overflow for windows near 2^63 ms.
- The source reads the clock separately in `isStepOneComplete`, `isCodeExpired` and `confirmCode`. The model decides one request at one instant.
- `ConfirmCode` and `Authenticate` require the instant to be a long, so that the 30-second step is a long as well.
- The authentication manager of the main filter is split in two:
  - a function for step one;
  - the two-factor provider for step two, which is the one it delegates to for the two-factor token.
- The choice filter's `userDetailsService` and the filter setters' string arguments are never null in the model.
- `HashMap.keySet()` iteration order is modelled as an unspecified order: the loop picks any remaining key.
- `isError` of `generateTwoFactorChoicePage` is unused in the source and in the model.
- The primary preference that `handleUsernamePasswordLogin` reads (`get(1)`) is never used, because the code that would use it is commented out. No attempt is saved at step one.
- The getters of the main filter, and the choice filter's private `isErrorPage` and `isChoiceUrl`, are not separate members. They are folded into `Config`, `Matches` and `DoFilter`.

## Findings

| source | as written | input that shows it | evidently intended | confidence | as-written member | corrected member |
|---|---|---|---|---|---|---|
| web/src/main/java/org/springframework/security/web/authentication/twofa/services/TotpService.java:69 | the code is padded to a fixed width of 6 whatever `codeLength` is | `codeLength` 8 and a truncated value of 42: the code is "000042" instead of "00000042"; with `codeLength` 4 the code still has six characters | pad to `codeLength` digits | not executed | Totp.AsWrittenDropsLeadingZeros | Totp.CodeShape |
| web/src/main/java/org/springframework/security/web/authentication/TwoFactorAuthenticationFilter.java:56 | the `userDetailsService` field is never assigned: no constructor, setter or configurer sets it | a GET of `/2FA/resend` for a session whose attempt was just saved throws `NullPointerException` at line 112 | the filter is given the user lookup, and the resend sends the stored code again | not executed | AuthFilter.ResendAsWritten | AuthFilter.ResendCorrected |
