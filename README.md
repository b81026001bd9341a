# Account gate and account settings of the club website

The site is mostly presentational. This project models the three pieces of it
that decide something, and proves properties of each:

- **The request gate** (`middleware.ts`). Requests whose path starts, as a raw
  string prefix, with a protected route (`/account`) need an `auth-token`
  cookie that is non-empty and that the token verifier accepts. Otherwise the
  gate redirects to `/signup`. The framework's matcher `/account/:path*` decides
  where the gate runs at all. The token verifier's code is not part of this
  model, so it is a parameter: an arbitrary total predicate on strings.
- **The account-settings page** (`src/app/account/page.tsx`). The component's
  state is a class, `AccountComponent.AccountPage`: the user, the loading,
  saving, uploading and resending flags, the toast, the name form and the
  password form. Each event handler is a method that changes these fields step
  by step. Two extra fields log the API calls issued (`requests`) and the
  `router.push` targets (`navigations`), so "sends no request" can be stated.
  Each handler is proved to end in the state given by a pure step function in
  module `Account`, and the lemmas there prove the page's rules:
  - validation happens before any request;
  - each check runs in the source's order;
  - for each reply, the whole next state is given: which fields change, to what, and that nothing else does;
  - over any run of events, at most one request is issued per event;
  - from an idle state, no busy flag stays on after any run of events;
  - over any run without a load, the account identity is kept.
- **The active-link rule** of the header (`src/components/navigation/header.tsx`).
  It is proved that, for the five fixed links, at most one link is active for
  any path.

The outside world enters as arguments. These are the status of a response (ok,
not ok, or thrown), the JSON fields the page reads, the answer to the
confirmation dialog, the picked file and the verifier's verdict.

String operations follow JavaScript (module `JsText`):

- `startsWith` is a raw prefix test.
- `trim` removes exactly the ECMAScript white-space and line-terminator
  characters.
- `length` counts UTF-16 code units. A character outside the Basic Multilingual
  Plane counts as 2.

Four behaviours of the code that a reader might not expect, each stated by a lemma:

- The raw `startsWith` also protects `/accounting`
  (`Middleware.ProtectionIsRawPrefix`). Only the matcher keeps the gate from
  running there, so a request for `/accounting` passes without a token
  (`Middleware.AccountingPassesThroughMatcher`).
- The resend handler checks nothing about the user: it sends the request in
  every state (`Account.ResendKeepsUser`). Only the page's rendering hides its
  button from a verified user.
- Logout goes home after any response, failed or not. Only a thrown `fetch`
  shows "Failed to logout" and stays on the page (`Account.LogoutOutcome`).
- The profile name is checked after trimming, but it is sent and stored
  untrimmed (`Account.SaveProfileOutcome`).

## Model

| member | source | states |
|---|---|---|
| `JsText.Trim` | src/app/account/page.tsx:79 | `trim()` yields the empty (falsy) string exactly when every character is JavaScript white space; otherwise the result starts and ends with a non-space |
| `JsText.TrimStart` | src/app/account/page.tsx:79 | the result is a suffix of the input, everything dropped is white space, and the result does not start with white space |
| `JsText.TrimEnd` | src/app/account/page.tsx:79 | the result is a prefix of the input, everything dropped is white space, and the result does not end with white space |
| `JsText.StartsWith` | src/components/navigation/header.tsx:58 | `startsWith`: the prefix is no longer than the string and equals the string's first characters (definition) |
| `JsText.TrimIsInnerSlice` | src/app/account/page.tsx:79 | `trim()` yields a contiguous slice of the input, and everything dropped in front of it and behind it is white space |
| `JsText.TrimStartEmptyIff` | src/app/account/page.tsx:79 | trimming the front leaves nothing exactly when the whole string is white space |
| `JsText.Utf16Length` | src/app/account/page.tsx:109 | `length` in UTF-16 code units lies between the character count and twice the character count |
| `JsText.Utf16LengthOfBasicPlane` | src/app/account/page.tsx:109 | for text inside the Basic Multilingual Plane, `length` equals the character count |
| `JsText.PrefixesAreComparable` | src/components/navigation/header.tsx:56-58 | two prefixes of one string are prefixes of each other, one way or the other |
| `Middleware.AnyRouteIsPrefix` | middleware.ts:8-10 | `protectedRoutes.some(r => path.startsWith(r))` is true exactly when some listed route is a raw prefix of the path |
| `Middleware.IsProtectedRoute` | middleware.ts:4-10 | a path is protected when some route of the list `["/account"]` is a raw prefix of it (definition; `Middleware.AnyRouteIsPrefix` states the "some") |
| `Middleware.AuthToken` | middleware.ts:7 | the token is present exactly when the `auth-token` cookie is, and then it is that cookie's value |
| `Middleware.Gate` | middleware.ts:6-24 | the only outcomes are "continue" and the redirect to `/signup`; a request continues exactly when its path is unprotected, or its token is non-empty and the verifier accepts it |
| `Middleware.UnprotectedAlwaysContinues` | middleware.ts:8-23 | if no protected route is a prefix of the path, the request continues whatever its cookies and whatever the verifier says |
| `Middleware.MissingTokenRedirects` | middleware.ts:13-15 | on a protected path, an absent or empty cookie redirects to `/signup` |
| `Middleware.RejectedTokenRedirects` | middleware.ts:17-20 | on a protected path, a non-empty token the verifier rejects redirects to `/signup` |
| `Middleware.AcceptedTokenContinues` | middleware.ts:17-23 | a non-empty token the verifier accepts lets the request continue |
| `Middleware.MissingAndRejectedIndistinguishable` | middleware.ts:13-20 | on the same protected path, a missing token and a rejected one give the identical response |
| `Middleware.VerifierConsultedOnlyWhenNeeded` | middleware.ts:12-17 | unless the path is protected and the token non-empty, no two verifiers can lead to different decisions; where the verifier is consulted, its verdict alone decides |
| `Middleware.ProtectionIsRawPrefix` | middleware.ts:4-10 | `/account`, `/account/security` and `/accounting` are protected; `/` and `/acc` are not |
| `Middleware.Handle` | middleware.ts:26-28 | outside the matcher every request continues; inside it, a request continues exactly when its token is non-empty and accepted |
| `Middleware.MatcherAdmits` | middleware.ts:26-28 | the matcher `/account/:path*` admits `/account` itself and every path below `/account/` (definition; an approximation, see "Left out") |
| `Middleware.MatchedPathsAreProtected` | middleware.ts:26-28 | every path the matcher admits is protected, so the gate never passes one of them unchecked |
| `Middleware.AccountingPassesThroughMatcher` | middleware.ts:4-28 | the gate alone would redirect a token-less `/accounting`, but because the matcher does not admit that path the request continues |
| `Header.CurrentPathname` | src/components/navigation/header.tsx:9 | a missing pathname becomes `""`; a present one is kept |
| `Header.IsActive` | src/components/navigation/header.tsx:56-58 | a link is active when the path equals its href, or when the href is not `/` and is a raw prefix of the path (definition; `Header.HomeActiveIff` and `Header.OtherActiveIff` state it per case) |
| `Header.HomeActiveIff` | src/components/navigation/header.tsx:56-58 | the Home link `/` is active exactly when the path is `/` itself |
| `Header.OtherActiveIff` | src/components/navigation/header.tsx:56-58 | any other link is active exactly when its href is a raw prefix of the path |
| `Header.ActiveWithoutSegmentBoundary` | src/components/navigation/header.tsx:56-58 | `/aboutus` activates About and `/gallery-2024` activates Gallery, since there is no segment boundary |
| `Header.NoLinkActiveWithoutPathname` | src/components/navigation/header.tsx:9-58 | with no pathname, no link is active |
| `Header.NavLinksPrefixFree` | src/components/navigation/header.tsx:12-18 | apart from `/`, no href of the list is a prefix of another, and every other href is longer than `/` |
| `Header.AtMostOneActive` | src/components/navigation/header.tsx:12-58 | for every path, two active links are the same link |
| `Account.NameError` | src/app/account/page.tsx:79-82 | the name is refused, with "Name cannot be empty", exactly when it is all white space |
| `Account.PasswordError` | src/app/account/page.tsx:109-117 | a new password is accepted exactly when it has at least 8 UTF-16 units and equals its confirmation; the length error wins over the mismatch error |
| `Account.AvatarError` | src/app/account/page.tsx:185-193 | a file is accepted exactly when its MIME type starts with `image/` and its size is at most 5242880 bytes; the type error wins over the size error |
| `Account.PasswordFailureText` | src/app/account/page.tsx:137 | the toast shows the server's error text when it is non-empty, and "Failed to update password" when the error is missing or empty |
| `Account.ShowMsg` | src/app/account/page.tsx:72-75 | `showMsg(kind, text)`: only the toast changes (definition) |
| `Account.Issue` | src/app/account/page.tsx:54-238 | one `fetch` of the handlers: the API call is appended to the request log (definition) |
| `Account.Navigate` | src/app/account/page.tsx:58-169 | one `router.push`: the target is appended to the navigation log (definition) |
| `Account.RenameUser` | src/app/account/page.tsx:94 | `setUser(prev => prev ? { ...prev, name } : null)`: a present user gets the new name and keeps every other field; a missing user stays missing (definition) |
| `Account.SetAvatar` | src/app/account/page.tsx:208 | `setUser(prev => prev ? { ...prev, avatarUrl } : null)`: a present user gets the new avatar URL and keeps every other field; a missing user stays missing (definition) |
| `Account.FetchUser` | src/app/account/page.tsx:55-68 | the load step: one auth check is logged; a thrown call, a non-ok status, an unauthenticated session or a missing user navigates to `/login`; otherwise the user is stored and the name field filled; loading ends off (definition; `Account.FetchUserOutcome` states its outcomes) |
| `Account.SaveProfile` | src/app/account/page.tsx:77-104 | a name that trims to nothing only raises "Name cannot be empty"; any other name goes to `Account.SendProfile` (definition; `Account.BlankNameSendsNothing` and `Account.SaveProfileOutcome` state its outcomes) |
| `Account.SendProfile` | src/app/account/page.tsx:84-103 | saving on, one profile request with the name as typed, the reply's toast, the rename on ok, saving off (definition) |
| `Account.UpdatePassword` | src/app/account/page.tsx:106-144 | a password refused by `Account.PasswordError` only raises that error; an accepted one goes to `Account.SendPassword` (definition; `Account.PasswordOutcome` and the refusal lemmas state its outcomes) |
| `Account.SendPassword` | src/app/account/page.tsx:119-143 | saving on, one request with the current and new password, the fields cleared on ok, the failure text otherwise, saving off (definition) |
| `Account.Logout` | src/app/account/page.tsx:146-156 | one logout request; a thrown call shows "Failed to logout", any answer navigates home (definition; `Account.LogoutOutcome` states its outcomes) |
| `Account.DeleteAccount` | src/app/account/page.tsx:158-178 | no change without confirmation; otherwise saving on, one delete request, home on ok, an error toast otherwise, saving off (definition; `Account.DeleteNeedsConfirmation` states its outcomes) |
| `Account.UploadAvatar` | src/app/account/page.tsx:180-218 | no file changes nothing; a file refused by `Account.AvatarError` only raises that error; an accepted one goes to `Account.SendAvatar` (definition; `Account.NoFilePickedChangesNothing`, `Account.InvalidAvatarSendsNothing` and `Account.AvatarOutcome` state its outcomes) |
| `Account.SendAvatar` | src/app/account/page.tsx:195-217 | uploading on, one upload request, the new avatar URL on success, an error toast otherwise, uploading off (definition) |
| `Account.ResendVerification` | src/app/account/page.tsx:220-238 | resending on, one request, the reply's toast, resending off (definition; `Account.ResendKeepsUser` states its outcome) |
| `Account.Apply` | src/app/account/page.tsx:54-365 | one event: the load, a handler with its reply, or a keystroke in one of the form fields (definition; `Account.ApplyFacts` states what every event keeps) |
| `Account.Run` | src/app/account/page.tsx:54-365 | a run of events applied in order (definition; the three `Run…` lemmas state what every run keeps) |
| `Account.BlankNameSendsNothing` | src/app/account/page.tsx:79-82 | a blank name changes only the toast: no request, and user and saving unchanged |
| `Account.SaveProfileOutcome` | src/app/account/page.tsx:84-103 | one profile request carries the untrimmed name; for each reply the whole next state is given: on ok only the request log, the saving flag (off), the user's name and the success toast change; on a failed or thrown call only the log, the flag and the matching error toast change |
| `Account.ShortPasswordRefusedFirst` | src/app/account/page.tsx:109-112 | a new password under 8 units is refused for its length even if the confirmation differs, with no request and no other change |
| `Account.MismatchedPasswordRefused` | src/app/account/page.tsx:114-117 | a long enough password that differs from its confirmation gets "Passwords do not match", with no request |
| `Account.EightCharacterPasswordIsSent` | src/app/account/page.tsx:109-129 | a confirmed password of exactly 8 Basic-Plane characters passes the length check and is sent |
| `Account.FourAstralCharactersAreLongEnough` | src/app/account/page.tsx:109 | four characters outside the Basic Multilingual Plane count as 8 and pass the length rule |
| `Account.PasswordOutcome` | src/app/account/page.tsx:119-143 | one request carries the current and the new password; for each reply the whole next state is given: ok clears all three fields and shows the success toast; a failure keeps them and shows the server's error or the fallback; a throw shows "An error occurred"; nothing else but the log and the saving flag (off) changes |
| `Account.AvatarSizeBoundary` | src/app/account/page.tsx:190-193 | an `image/png` of exactly 5242880 bytes passes; one byte more is refused as too large |
| `Account.NonImageRefusedAtAnySize` | src/app/account/page.tsx:185-188 | a `text/plain` file is refused for its type, whatever its size |
| `Account.AvatarOutcome` | src/app/account/page.tsx:195-217 | a valid file sends one upload; for each reply the whole next state is given: on success only the user's `avatarUrl` (a missing user stays missing) and the success toast change; a rejection or a throw changes only the matching error toast; the log and the upload flag (off) change in every case, nothing else |
| `Account.NoFilePickedChangesNothing` | src/app/account/page.tsx:181-182 | when the picker returns no file the page state is unchanged: no toast, no request |
| `Account.InvalidAvatarSendsNothing` | src/app/account/page.tsx:180-193 | an invalid file changes only the toast, to its validation error, and sends nothing |
| `Account.ResendKeepsUser` | src/app/account/page.tsx:220-238 | resending sends one request in every state and never touches the user; for each reply the whole next state is given: only the log, the resending flag (off) and the reply's toast change |
| `Account.DeleteNeedsConfirmation` | src/app/account/page.tsx:158-178 | without confirmation nothing changes at all; with it, one delete request is sent and, for each reply, the whole next state is given: ok navigates home with no toast; a failure or a throw shows its error toast; the saving flag ends off and nothing else changes |
| `Account.FetchUserOutcome` | src/app/account/page.tsx:55-68 | the load goes to `/login` exactly when the call threw, the status was not ok, the session is unauthenticated or no user came back, and then only the log, the loading flag and the navigation change; otherwise only the log, the loading flag, the user and the name field change; loading ends off |
| `Account.LogoutOutcome` | src/app/account/page.tsx:146-156 | one logout request is logged; a thrown call changes only the toast, to "Failed to logout", and navigates nowhere; any answer, ok or not, navigates home and changes nothing else |
| `Account.LogoutTwice` | src/app/account/page.tsx:146-156 | a second logout does what the first did: two requests, and home twice unless the call threw; the user is untouched |
| `Account.AppendOneGrows` | src/app/account/page.tsx:57-223 | appending one call to the request log grows it by at most one entry and keeps the earlier entries, the step each handler's request takes |
| `Account.SaveProfileRespects` | src/app/account/page.tsx:77-104 | saving the profile issues at most one request, keeps an idle page idle, and keeps the account |
| `Account.UpdatePasswordRespects` | src/app/account/page.tsx:106-144 | updating the password issues at most one request, keeps an idle page idle, and keeps the account |
| `Account.UploadAvatarRespects` | src/app/account/page.tsx:180-218 | uploading an avatar issues at most one request, keeps an idle page idle, and keeps the account |
| `Account.LogoutRespects` | src/app/account/page.tsx:146-156 | logging out issues exactly one request, keeps an idle page idle, and keeps the account |
| `Account.DeleteAccountRespects` | src/app/account/page.tsx:158-178 | deleting issues at most one request, keeps an idle page idle, and keeps the account |
| `Account.ResendVerificationRespects` | src/app/account/page.tsx:220-238 | resending issues exactly one request, keeps an idle page idle, and keeps the account |
| `Account.ApplyFacts` | src/app/account/page.tsx:54-238 | any single event appends at most one request, keeps an idle page idle, and, unless it is the load, keeps the user's id, email, verification flag and timestamps |
| `Account.RunIssuesAtMostOnePerEvent` | src/app/account/page.tsx:54-238 | over any run of events, the request log only grows, by at most one call per event |
| `Account.RunStaysIdle` | src/app/account/page.tsx:84-236 | over any run of events, an idle page stays idle: every handler switches its busy flag back off |
| `Account.RunKeepsAccount` | src/app/account/page.tsx:77-238 | over any run without a load, the page never creates or removes the user and never changes its id, email, `emailVerified` or timestamps |
| `AccountComponent.AccountPage.constructor` | src/app/account/page.tsx:34-52 | the state hooks start as the initial page state |
| `AccountComponent.AccountPage.ShowMsg` | src/app/account/page.tsx:72-75 | only the toast changes, to the given kind and text |
| `AccountComponent.AccountPage.Send` | src/app/account/page.tsx:54-238 | one `fetch`: exactly that call is appended to the request log, and no other field is in its frame |
| `AccountComponent.AccountPage.Push` | src/app/account/page.tsx:58-169 | one `router.push`: exactly that target is appended to the navigation log, and no other field is in its frame |
| `AccountComponent.AccountPage.FetchUser` | src/app/account/page.tsx:55-68 | the component ends in the state `Account.FetchUser` gives for the reply |
| `AccountComponent.AccountPage.HandleSaveProfile` | src/app/account/page.tsx:77-104 | the component ends in the state `Account.SaveProfile` gives for the reply |
| `AccountComponent.AccountPage.SubmitProfile` | src/app/account/page.tsx:84-103 | the request half ends in the state `Account.SendProfile` gives |
| `AccountComponent.AccountPage.HandleUpdatePassword` | src/app/account/page.tsx:106-144 | the component ends in the state `Account.UpdatePassword` gives for the reply |
| `AccountComponent.AccountPage.SubmitPassword` | src/app/account/page.tsx:119-143 | the request half ends in the state `Account.SendPassword` gives |
| `AccountComponent.AccountPage.HandleLogout` | src/app/account/page.tsx:146-156 | the component ends in the state `Account.Logout` gives for the reply |
| `AccountComponent.AccountPage.HandleDeleteAccount` | src/app/account/page.tsx:158-178 | the component ends in the state `Account.DeleteAccount` gives for the dialog answer and the reply |
| `AccountComponent.AccountPage.HandleAvatarUpload` | src/app/account/page.tsx:180-218 | the component ends in the state `Account.UploadAvatar` gives for the file and the reply |
| `AccountComponent.AccountPage.SubmitAvatar` | src/app/account/page.tsx:195-217 | the upload half ends in the state `Account.SendAvatar` gives |
| `AccountComponent.AccountPage.HandleResendVerification` | src/app/account/page.tsx:220-238 | the component ends in the state `Account.ResendVerification` gives for the reply |
| `AccountComponent.AccountPage.EditName` | src/app/account/page.tsx:332 | only the name field changes, to the typed text |
| `AccountComponent.AccountPage.EditCurrentPassword` | src/app/account/page.tsx:351 | only the current-password field changes |
| `AccountComponent.AccountPage.EditNewPassword` | src/app/account/page.tsx:358 | only the new-password field changes |
| `AccountComponent.AccountPage.EditConfirmPassword` | src/app/account/page.tsx:365 | only the confirmation field changes |

## Left out

- The token verifier (`verifyToken` in `@/lib/auth`) is not part of this model. Its signature and expiry checks are not modelled. It is a total predicate passed in, so a verifier that throws is not covered.
- `getAuthCookie` is imported by `middleware.ts` but never called there.
- The redirect is modelled by its target path. Building the absolute URL from `request.url` is not modelled.
- `Middleware.MatcherAdmits` approximates the framework's `/account/:path*` matcher as `/account` or any path starting with `/account/`. Trailing-slash normalisation, locales and data routes are not modelled.
- Server-side behaviour behind the API endpoints is not part of this model. This covers password hashing, the current-password check, atomic commits, session revocation after delete or logout, and `emailVerified` transitions. So is a later session check after deletion.
- `fetch`, `response.json()`, `router.push`, `window.confirm` and the file picker are inputs or logged effects. A failing `response.json()` is folded into the thrown case, which the source's `catch` handles identically.
- `data?.isAuthenticated` and `data.error` are reduced to their truthiness or to an optional string. Absent and `null` optional fields of `User` are both `None`.
- Strings are sequences of Unicode scalar values. JavaScript strings with unpaired surrogates are not modelled.
- The three-second auto-clear of the toast (`setTimeout`) is timer-driven and not modelled.
- `copyToClipboard`, the show-password toggles and the JSX with its helper components are presentation only. The `disabled={saving}` button guards, the `disabled={uploadingAvatar}` guard on the file input (page.tsx line 292) and the `disabled={resendingEmail}` guard on the resend button (line 310) are not modelled: in this sequential model no busy flag is ever on between events that start from an idle page (`Account.RunStaysIdle`).
- The page renders no form while `loading` is true or while there is no user, so no handler can be triggered then. The model does not encode this rendering condition: it lets every handler run in those states too, which over-approximates what a user can do.
- Async interleavings, such as two submissions in flight at once, are not modelled. Each handler runs as one sequential step.
- The resend button is only rendered for a user who is not yet verified. That rendering condition is not modelled. The handler itself has no such check.
- The header's theme switching (`IntersectionObserver`) is not modelled. Neither are the core-team page, the home sections and the footer, which are static content and animation.
