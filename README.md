# Kyrant authentication core, modelled in Dafny

Kyrant is a print-on-demand storefront for designers and merchants. This
project models its authentication core and the few pages that carry decision
logic. It proves properties of that model.

The modelled parts:

- **The authentication service.** Sign-up role validation (admin is never
  self-assigned). How the identity provider's sign-up, sign-in and profile
  answers become results. The `kyrant_oauth_role` entry kept in `localStorage`
  across the Google redirect.
- **The authentication provider.** The `user`/`session`/`profile`/`loading`
  state, the initial session check, and the auth-event handler. The handler
  schedules a delayed profile fetch and may correct the OAuth role.
- **The friendly error mapper and the email and password checks.**
- **The two route guards.** `ProtectedRoute` and `RedirectIfAuthenticated`.
- **The state machines of four pages.**
  - The merchant login form.
  - The resend-confirmation status machine.
  - The designs page pager and sort dropdown.
  - The loading bar.
- **The page animator's target collection and entrance plan.**
- **The privacy page's download text and rendering rule.**

Each source file is one module: `AuthService`, `AuthContext`,
`ErrorMessages`, `ProtectedRoute`, `RedirectIfAuthenticated`,
`MerchantLoginPage`, `SignUpConfirmationPage`, `DesignsPage`,
`LoadingScreen`, `PageAnimator` and `PrivacyPage`. Three modules support them:

- `Types` holds the shared records.
- `Strings` holds the JavaScript string operations the code relies on.
- `BrowserStorage` is a `Storage` class for `localStorage` and
  `sessionStorage`. These are two separate instances.

Code that updates state in place is modelled as classes whose methods state
the whole new state. That covers the provider, the forms, the pager, the
loading bar and the browser storages. Expressions are modelled as functions.

Calls to the identity provider and the database are parameters: the answer
they give. The profiles table is a function from user id to the query's
answer. An asynchronous handler body is one atomic step. Where the
intermediate state matters, a handler is split at its `await`: `BeginSubmit`
and `FinishSubmit`, `BeginResend` and `FinishResend`. Timers are explicit
steps:

- the 500 ms profile fetch is a queue. `BeginProfileFetch` fires the timer
  and sends the query under the session of that moment, and
  `FinishProfileFetch` stores the answer;
- the loading interval is `OnInterval`;
- the animator's timeouts are times in the returned plan.

JavaScript truthiness is written out (`Types.Truthy`): an optional string
counts as present only when it is non-empty. Default parameters apply only
when the argument is absent.

Facts about the code that the model keeps as they are:

- `fetchProfile` fetches once and stores null on error
  (src/contexts/AuthContext.tsx:77-80); there is no retry;
- nothing bounds how long `loading` stays true: it ends only when the
  initial session check finishes;
- the login action checks no expected role;
- the OAuth role read after the redirect is not validated again;
- a sign-out does not discard a profile fetch still in flight (see
  Findings).

## Model

| member | source | states |
|---|---|---|
| Strings.SplitThenJoin | src/utils/errorMessages.ts:69 | Joining the pieces of `split` with the same separator gives the string back. |
| Strings.JoinThenSplit | src/utils/errorMessages.ts:69 | Splitting a join of separator-free pieces gives the pieces back. |
| Strings.JoinAppend | src/pages/PrivacyPage.tsx:102-107 | A join of n+1 pieces is the join of the first n, the separator and the last. |
| Strings.TrimEmptyIffBlank | src/utils/errorMessages.ts:95 | `trim()` is empty exactly when every character is whitespace. |
| Strings.NatToStringRoundTrip | src/pages/PrivacyPage.tsx:106 | The decimal rendering of a number reads back as that number. |
| BrowserStorage.Storage.GetItem | src/contexts/AuthContext.tsx:132 | `getItem` is the stored value exactly when the key is present, else null. |
| BrowserStorage.Storage.SetItem | src/services/auth.service.ts:159 | `setItem` maps the key to the value and leaves every other key alone. |
| BrowserStorage.Storage.RemoveItem | src/services/auth.service.ts:176 | `removeItem` drops exactly that key. |
| AuthService.FindRoleNamed | src/services/auth.service.ts:45 | `includes` finds a listed role with that name, or no listed role has it. |
| AuthService.ValidateSignupRole | src/services/auth.service.ts:37-50 | The result is always designer or merchant, never admin. A designer or merchant name is kept and anything else becomes merchant. |
| AuthService.ValidateSignupRoleIdempotent | src/services/auth.service.ts:44-50 | Validating an already validated role changes nothing. |
| AuthService.AdminIsClampedToMerchant | src/services/auth.service.ts:44-50 | A request for admin yields merchant. |
| AuthService.SignUpRequestFor | src/services/auth.service.ts:73-85 | The provider receives the validated role, never admin. It receives `fullName ?? ""` and the origin plus "/email-confirmed". |
| AuthService.SignUpWithEmail | src/services/auth.service.ts:67-108 | The provider's already-registered answer (no error, a user without identities) becomes a "User already registered" error with no user and no session. Every other answer passes through unchanged. |
| AuthService.SignUpSucceedsIff | src/services/auth.service.ts:91-107 | Sign-up reports no error exactly when the provider reported none and sent no identity-less user. A successful sign-up never returns such a user. |
| AuthService.SignInWithEmail | src/services/auth.service.ts:113-127 | Returns the provider's user, session and error unchanged. |
| AuthService.SignUpAgreesWithSignIn | src/services/auth.service.ts:113-127 | Apart from the already-registered echo, sign-up shapes the answer exactly as sign-in does. |
| AuthService.StorageAfterGoogle | src/services/auth.service.ts:151-180 | Afterwards the key holds the validated role (only designer or merchant) when a non-empty role was given and OAuth succeeded. It is absent when OAuth failed, and storage is untouched without a role. Other keys never change. |
| AuthService.SignInWithGoogle | src/services/auth.service.ts:151-180 | Returns the OAuth error and leaves `localStorage` as `StorageAfterGoogle` says. |
| AuthService.SignOut | src/services/auth.service.ts:189-193 | Returns the provider's error and removes the pending role either way. |
| AuthService.GetProfile | src/services/auth.service.ts:225-240 | On a query error there is no profile, only the error's message. Otherwise the row is returned. |
| AuthService.UpdateProfile | src/services/auth.service.ts:246-256 | Returns an error message exactly when the update failed, and that message is the update error's. |
| AuthContext.SessionUser | src/contexts/AuthContext.tsx:123 | `session?.user ?? null` is the session's user exactly when there is a session. |
| AuthContext.OAuthRoleCorrection | src/contexts/AuthContext.tsx:132-149 | A metadata update is made exactly when the stored role is non-empty, a profile exists with role merchant, and the stored role is not "merchant". The update carries the stored string itself. |
| AuthContext.OAuthCorrectionForwardsAdmin | src/contexts/AuthContext.tsx:144-148 | A stored "admin" is forwarded to the metadata update unvalidated. |
| AuthContext.IntendedOAuthRoleCorrection | src/contexts/AuthContext.tsx:132-149 | Reading `localStorage` and validating first, the only role that can ever be applied is designer. The iff condition is stated. |
| AuthContext.IntendedGoogleSignUpAppliesRole | src/contexts/AuthContext.tsx:132-149 | With the intended correction, a Google sign-up as designer onto a fresh merchant profile is corrected to designer. |
| AuthContext.ErrorMessage | src/contexts/AuthContext.tsx:173 | `if (error) return error.message; return null`. |
| AuthContext.SignUpAction | src/contexts/AuthContext.tsx:165-177 | The signUp action returns null exactly when the provider sent no error and no already-registered echo. Otherwise it returns the provider's message or "User already registered". |
| AuthContext.SignInAction | src/contexts/AuthContext.tsx:179-186 | The signIn action returns the provider's error message, or null exactly when there is no error. |
| AuthContext.AuthProvider.constructor | src/contexts/AuthContext.tsx:67-71 | Starts with no user, session or profile, with loading true and no fetch scheduled or in flight. `sessionStorage` and `localStorage` are distinct stores. |
| AuthContext.AuthProvider.FetchProfile | src/contexts/AuthContext.tsx:77-80 | The profile becomes what getProfile returns, null on error. Nothing else changes. |
| AuthContext.AuthProvider.RefreshProfile | src/contexts/AuthContext.tsx:85-89 | Refetches for the current user. Without a user or with an empty id, nothing changes. |
| AuthContext.AuthProvider.InitializeAuth | src/contexts/AuthContext.tsx:94-114 | Loading ends false on both paths. An exception clears user, session and profile. Otherwise session and user come from the initial session, and the profile is fetched only when there is a user. |
| AuthContext.AuthProvider.OnAuthStateChange | src/contexts/AuthContext.tsx:121-156 | Every event replaces session and user, and loading is untouched. On a sign-in with a session, a fetch is queued. A non-empty `sessionStorage` role is removed and yields `OAuthRoleCorrection`. A sign-out clears the profile. |
| AuthContext.AuthProvider.BeginProfileFetch | src/contexts/AuthContext.tsx:127-129 | The oldest scheduled fetch fires. Its query is sent for the user it was scheduled for, and records whether that user is the one signed in now. The visible state is unchanged. |
| AuthContext.AuthProvider.FinishProfileFetch | src/contexts/AuthContext.tsx:127-129 | The oldest query's answer is stored whoever is signed in now. It is the row when the query was sent under its user's own session, and null otherwise. |
| AuthContext.AuthProvider.FinishProfileFetchForCurrentUser | src/contexts/AuthContext.tsx:127-129 | The corrected answer step stores the answer only while the scheduled user is still signed in. Otherwise the profile is kept. |
| AuthContext.AuthProvider.SignInGoogleAction | src/contexts/AuthContext.tsx:188-195 | Returns the OAuth error's message and updates `localStorage` as the service does. |
| AuthContext.AuthProvider.SignOutAction | src/contexts/AuthContext.tsx:197-201 | Returns the sign-out error's message and removes the pending role. |
| AuthContext.GoogleSignUpRoleIsLost | src/contexts/AuthContext.tsx:132 | After a Google sign-up as designer onto a fresh merchant profile, the handler makes no role update. |
| AuthContext.AnsweredUnder | src/services/auth.service.ts:222-238 | Row-level security: a query sent under its user's own session sees that user's row. Any other query gets an error, so `getProfile` returns no profile. |
| AuthContext.StaleProfileAfterSignOut | src/contexts/AuthContext.tsx:125-155 | Sign-in, then the timer sends its query, then sign-out while it is in flight, then the answer. The signed-out state holds the previous user's profile. |
| AuthContext.SignOutBeforeTimerKeepsNoProfile | src/contexts/AuthContext.tsx:125-155 | When the sign-out comes before the timer fires, the query has no session and the signed-out state keeps no profile. |
| AuthContext.NoStaleProfileWithCurrentUserCheck | src/contexts/AuthContext.tsx:125-155 | The in-flight sequence with the corrected answer step ends with no profile. |
| ErrorMessages.ExactIndex | src/utils/errorMessages.ts:78 | Finds the first table entry whose key equals the input, or reports that none does. |
| ErrorMessages.SubstringIndex | src/utils/errorMessages.ts:81-84 | Finds the first entry whose lowercased key the lowercased input contains, or reports that none does. |
| ErrorMessages.RoleMismatchMessage | src/utils/errorMessages.ts:68-74 | The sentence names the capitalised second field as the actual role and the capitalised third as the expected one. A missing field reads "Other" or "This". |
| ErrorMessages.FriendlyErrorWith | src/utils/errorMessages.ts:63-88 | A missing or empty input gives the "unexpected" message. A "ROLE_MISMATCH:" input gives the role sentence. Otherwise the result is the first exact key's message, else the first contained key's, else the fallback. |
| ErrorMessages.FriendlyError | src/utils/errorMessages.ts:9-88 | `friendlyError` with `ERROR_MAP` never returns an empty message. Outside the role-mismatch case it always returns one of the table's messages or the fallback. |
| ErrorMessages.RoleMismatchHasActualField | src/utils/errorMessages.ts:68-70 | A role-mismatch input always has a second field, so the "other" default never applies. |
| ErrorMessages.RoleMismatchRoundTrip | src/utils/errorMessages.ts:68-74 | "ROLE_MISMATCH:a:e" names the capitalised a twice and the capitalised e once. |
| ErrorMessages.RoleMismatchWithoutExpected | src/utils/errorMessages.ts:71-73 | Without a third field, the expected role reads "This". |
| ErrorMessages.IndexOfCharFinds | src/utils/errorMessages.ts:96 | An "@" with no "@" before it is the first one found. |
| ErrorMessages.ShapedMatchesPattern | src/utils/errorMessages.ts:96 | The first-"@" check accepts only what the pattern accepts. |
| ErrorMessages.PatternIsShaped | src/utils/errorMessages.ts:96 | Everything the pattern accepts passes the first-"@" check. |
| ErrorMessages.EmailShapeMatchesPattern | src/utils/errorMessages.ts:96-97 | The first-"@" check accepts exactly what `/^[^\s@]+@[^\s@]+\.[^\s@]+$/` accepts. |
| ErrorMessages.ValidateEmail | src/utils/errorMessages.ts:94-100 | A blank input gets the empty-address message. Null is returned exactly when the trimmed input matches the pattern. Otherwise the result is the invalid-address message. |
| ErrorMessages.ValidatePassword | src/utils/errorMessages.ts:106-111 | Empty gives the empty message and 1 to 5 characters give the short message, each exactly. Null is returned exactly from 6 characters on. |
| ProtectedRoute.Guard | src/components/ProtectedRoute.tsx:40-74 | Loading shows the spinner exactly while loading. No user redirects to `redirectTo`, default "/onboarding". A loaded profile whose role is not allowed redirects to "/dashboard". Content renders exactly when signed in and (no role list, or no profile, or the role is allowed). |
| ProtectedRoute.RoleCheckWaitsForProfile | src/components/ProtectedRoute.tsx:66-73 | A signed-in user whose profile is missing passes any role restriction. |
| ProtectedRoute.SignedInWithPermittedRoleRenders | src/components/ProtectedRoute.tsx:61-73 | Content is never shown without a user, and is shown to a user whose loaded role is allowed. |
| RedirectIfAuthenticated.Guard | src/components/RedirectIfAuthenticated.tsx:25-52 | Shows the spinner exactly while loading and renders content exactly when no user is signed in. Otherwise it redirects to `redirectTo`, default "/dashboard". |
| RedirectIfAuthenticated.GuardsAreComplementary | src/components/RedirectIfAuthenticated.tsx:25-52 | Once loaded, exactly one of an unrestricted protected page and an auth page renders. Each redirects by default to the other's side. |
| RedirectIfAuthenticated.BothWaitWhileLoading | src/components/RedirectIfAuthenticated.tsx:32-43 | While loading, both guards show only the spinner. |
| MerchantLoginPage.ReadyToSubmit | src/pages/MerchantLoginPage.tsx:31 | Submission proceeds exactly when both fields contain a non-whitespace character. |
| MerchantLoginPage.LoginForm.constructor | src/pages/MerchantLoginPage.tsx:23-26 | The form starts with empty fields, not submitting and with no error. |
| MerchantLoginPage.LoginForm.SubmitDisabled | src/pages/MerchantLoginPage.tsx:214 | The button is disabled exactly while submitting. |
| MerchantLoginPage.LoginForm.SubmitLabel | src/pages/MerchantLoginPage.tsx:217 | The button reads "Logging in…" while submitting and "Login" otherwise. |
| MerchantLoginPage.LoginForm.SetEmail | src/pages/MerchantLoginPage.tsx:154 | Typing replaces the email only. |
| MerchantLoginPage.LoginForm.SetPassword | src/pages/MerchantLoginPage.tsx:170 | Typing replaces the password only. |
| MerchantLoginPage.LoginForm.BeginSubmit | src/pages/MerchantLoginPage.tsx:29-34 | With a blank field nothing changes and nothing is sent. Otherwise the form is submitting with no error, and it sends the untrimmed fields. |
| MerchantLoginPage.LoginForm.FinishSubmit | src/pages/MerchantLoginPage.tsx:34-40 | A non-empty error is shown and re-enables the form. Otherwise the page goes to "/dashboard" and stays submitting. |
| MerchantLoginPage.LoginForm.Submit | src/pages/MerchantLoginPage.tsx:29-41 | Runs the whole handler against the provider's answer, with the outcome of both steps. |
| MerchantLoginPage.LoginForm.GoogleLogin | src/pages/MerchantLoginPage.tsx:44-48 | The error is cleared, then set only to a non-empty error message. |
| MerchantLoginPage.EmptyErrorMessageNavigates | src/pages/MerchantLoginPage.tsx:35-40 | A sign-in error with an empty message navigates to the dashboard as if it had succeeded. |
| SignUpConfirmationPage.ConfirmationEmail | src/pages/SignUpConfirmationPage.tsx:26 | The query's email when non-empty, else "your email". Never empty. |
| SignUpConfirmationPage.ResendForm.constructor | src/pages/SignUpConfirmationPage.tsx:26-31 | Starts idle with no error, for the page's address. |
| SignUpConfirmationPage.ResendForm.ResendDisabled | src/pages/SignUpConfirmationPage.tsx:108 | Disabled exactly while sending and once sent. |
| SignUpConfirmationPage.ResendForm.ResendCaption | src/pages/SignUpConfirmationPage.tsx:111-114 | The caption for each status: "Resend confirmation email", "Sending...", "Email sent!" and "Retry sending". |
| SignUpConfirmationPage.ResendForm.BeginResend | src/pages/SignUpConfirmationPage.tsx:34-43 | A no-op exactly in sending and sent, so sent is terminal. Otherwise it moves to sending, clears the error and requests a resend to the page's address. |
| SignUpConfirmationPage.ResendForm.FinishResend | src/pages/SignUpConfirmationPage.tsx:45-50 | An error leads to the error state with its message, success to sent. The error message is held exactly in the error state. |
| SignUpConfirmationPage.ResendForm.Resend | src/pages/SignUpConfirmationPage.tsx:34-51 | Runs the whole handler against the provider's answer. |
| SignUpConfirmationPage.ResendWithoutAddressUsesPlaceholder | src/pages/SignUpConfirmationPage.tsx:26-43 | Without an email parameter, the resend is requested for "your email". |
| SignUpConfirmationPage.IntendedResendTarget | src/pages/SignUpConfirmationPage.tsx:26-43 | A resend goes to the query's address exactly when one is given. |
| SignUpConfirmationPage.IntendedResendNeverUsesPlaceholder | src/pages/SignUpConfirmationPage.tsx:26-43 | The corrected target never substitutes the placeholder for a missing address. |
| DesignsPage.PrevPage | src/pages/DesignsPage.tsx:342 | `Math.max(1, p - 1)`: at least 1 and at least p-1, and equal to one of them. |
| DesignsPage.NextPage | src/pages/DesignsPage.tsx:378 | `Math.min(5, p + 1)`: at most 5 and at most p+1, and equal to one of them. |
| DesignsPage.PageNumbers | src/pages/DesignsPage.tsx:349 | The page buttons are 1 to 5 in order. |
| DesignsPage.PageNumbersCoverRange | src/pages/DesignsPage.tsx:349-359 | A page button exists exactly for each page in 1..5. |
| DesignsPage.PrevUndoesNext | src/pages/DesignsPage.tsx:342-379 | Below the last page, Prev undoes Next. |
| DesignsPage.NextSaturatesAtLastPage | src/pages/DesignsPage.tsx:376-379 | At the last page, Next stays put. |
| DesignsPage.DesignsView.constructor | src/pages/DesignsPage.tsx:171-174 | Starts on page 3, sorted by "Most Popular", with the dropdown closed. |
| DesignsPage.DesignsView.PrevDisabled | src/pages/DesignsPage.tsx:341 | Prev is disabled exactly on page 1. |
| DesignsPage.DesignsView.NextDisabled | src/pages/DesignsPage.tsx:376 | Next is disabled exactly on page 5. |
| DesignsPage.DesignsView.Prev | src/pages/DesignsPage.tsx:342 | Moves one page back, never before page 1, and keeps the page in range. |
| DesignsPage.DesignsView.Next | src/pages/DesignsPage.tsx:377-379 | Moves one page on, never past page 5, and keeps the page in range. |
| DesignsPage.DesignsView.SelectPage | src/pages/DesignsPage.tsx:359 | A page button sets that page, which is in range. |
| DesignsPage.DesignsView.ToggleSortDropdown | src/pages/DesignsPage.tsx:260 | Flips the dropdown. |
| DesignsPage.DesignsView.ChooseSort | src/pages/DesignsPage.tsx:299-302 | Sets the chosen sort and closes the dropdown. |
| LoadingScreen.Tick | src/components/LoadingScreen.tsx:12-15 | At 96 or above the result is 96, below it p+4. |
| LoadingScreen.ProgressClosedForm | src/components/LoadingScreen.tsx:8-15 | After n ticks the progress is 8+4n for n < 22 and 96 from then on. |
| LoadingScreen.ProgressMonotoneAndCapped | src/components/LoadingScreen.tsx:8-15 | The progress never decreases and stays between 8 and 96. |
| LoadingScreen.ProgressFullIff | src/components/LoadingScreen.tsx:8-15 | The bar is at 96 exactly from the 22nd tick on. |
| LoadingScreen.LoadingBar.constructor | src/components/LoadingScreen.tsx:8 | The bar starts at 8. |
| LoadingScreen.LoadingBar.OnInterval | src/components/LoadingScreen.tsx:11-16 | One tick applies the updater. The progress stays the progress after that many ticks, never decreases and never passes 96. |
| LoadingScreen.LoadingBar.Width | src/components/LoadingScreen.tsx:76 | The width is the progress in decimal digits followed by "%". |
| PageAnimator.DedupSameElements | src/components/PageAnimator.tsx:31-39 | The collected elements are exactly the elements found. |
| PageAnimator.DedupDistinct | src/components/PageAnimator.tsx:28-39 | No element is collected twice. |
| PageAnimator.DedupFirstOccurrenceOrder | src/components/PageAnimator.tsx:31-39 | Collected elements are ordered by first occurrence, in selector order. |
| PageAnimator.CollectTargets | src/components/PageAnimator.tsx:28-44 | The loops with the `seen` set give the de-duplicated findings, or the body's children when nothing is found. |
| PageAnimator.TargetsCoverFound | src/components/PageAnimator.tsx:31-38 | Every element any selector finds is collected. |
| PageAnimator.DirectionClass | src/components/PageAnimator.tsx:48-53 | Element i's direction is top, left, right or bottom by i mod 4. |
| PageAnimator.EntranceClasses | src/components/PageAnimator.tsx:49-53 | Afterwards an element has its direction class, no other direction class and no "enter-in". Its other classes are unchanged. |
| PageAnimator.DirectionsCycle | src/components/PageAnimator.tsx:48 | Neighbours enter from different directions, and the directions repeat every four elements. |
| PageAnimator.PlanEntrances | src/components/PageAnimator.tsx:46-62 | Element i gets its entrance classes and delay i*stagger, and "enter-in" at 20+i*stagger. |
| PageAnimator.EntranceBeforeCleanup | src/components/PageAnimator.tsx:61-69 | With a non-negative stagger, every element enters before the delays are cleared at n*stagger+800. |
| PageAnimator.Animate | src/components/PageAnimator.tsx:11-72 | Does nothing unless triggered. Otherwise it plans the collected targets with stagger default 90 and cleanup at n*stagger+800. |
| PrivacyPage.Heading | src/pages/PrivacyPage.tsx:106 | Section k's heading is "k+1. " followed by the title. |
| PrivacyPage.HeadingNumber | src/pages/PrivacyPage.tsx:106 | The heading's number reads back as k+1. |
| PrivacyPage.ContentText | src/pages/PrivacyPage.tsx:103-105 | A text body is kept as it is. Newline-free lines, joined by newlines, split back into the same lines. |
| PrivacyPage.SectionsText | src/pages/PrivacyPage.tsx:102-107 | No section gives nothing and one section gives its block alone. More sections start with the first block and a blank line. |
| PrivacyPage.DownloadText | src/pages/PrivacyPage.tsx:96-107 | The download starts with "Kyrant", the date line and a blank line, and the rest is the body. |
| PrivacyPage.Blocks | src/pages/PrivacyPage.tsx:102-106 | One block per section, in order, each numbered by position. |
| PrivacyPage.SectionsTextAppend | src/pages/PrivacyPage.tsx:102-107 | Another section adds a blank line and its block at the end. |
| PrivacyPage.SectionsTextSingle | src/pages/PrivacyPage.tsx:102-107 | A single section is its heading, a newline and its body. |
| PrivacyPage.BlockStartsWithHeading | src/pages/PrivacyPage.tsx:106 | Each block starts with its numbered heading on a line of its own. |
| PrivacyPage.LinesReadBack | src/pages/PrivacyPage.tsx:103-105 | Lines joined by newlines split back into the same lines. |
| PrivacyPage.DatedTextHead | src/pages/PrivacyPage.tsx:97-100 | The download starts with "Kyrant", the date line and a blank line. |
| PrivacyPage.DatedTextInjective | src/pages/PrivacyPage.tsx:97-98 | Texts with the same body are equal exactly when their dates are. |
| PrivacyPage.DownloadDateFollowsClock | src/pages/PrivacyPage.tsx:98 | Two downloads agree exactly when their dates do. |
| PrivacyPage.IntendedDownloadText | src/pages/PrivacyPage.tsx:136 | The corrected download is dated as the page is. |
| PrivacyPage.IntendedDownloadMatchesPageDate | src/pages/PrivacyPage.tsx:136 | A download made on a given day has the page's date exactly when that day is the page's date. |
| PrivacyPage.RenderLine | src/pages/PrivacyPage.tsx:159-161 | A line is indented exactly when it starts with "-". |
| PrivacyPage.RenderSection | src/pages/PrivacyPage.tsx:149-169 | The heading is numbered k+1. List content gives one rendered line per line, and text gives one unindented paragraph. |
| PrivacyPage.RenderedAgreesWithDownload | src/pages/PrivacyPage.tsx:102-107 | The rendered section has the same heading and body text as its block in the download. |

## Left out

- The identity provider and the database. Their answers are parameters, so network failures, latency and the request options are not modelled. The request options include the OAuth `redirectTo` and `queryParams`.
- `getSession` and `getUser` in the authentication service. They pass provider answers through with no logic of their own. The initial session check is the `InitialCheck` parameter.
- The outcome of the metadata update in the auth-event handler. The source ignores it, and the model returns only the update asked for.
- Concurrency. Each handler body is one atomic step, except the delayed profile fetch, whose query and answer are two steps, and the caller chooses the order of the initial check and the events.
- Unsubscribing from auth events and clearing timers on unmount. They only stop future steps.
- Real time. The 160 ms interval, the 500 ms delay and the animator's timeouts are explicit steps or times in a plan.
- DOM effects: class lists, inline styles, the forced reflow, print, and the Blob download. The animator's effects are returned as a plan. Clearing the inline delays at cleanup is represented only by its time.
- The `exiting` prop of the loading screen. It is unused.
- Plain navigation links: logo, designer-login arrows, sign-up link, header buttons. They have no decision logic.
- Unicode. Whitespace, case mapping and `\s` are the ASCII ones. Lengths count characters, not UTF-16 code units, so a password with characters outside the Basic Multilingual Plane is measured differently.
- Prototype-chain lookups in the error table, such as the key "constructor". The table is exactly its listed keys.
- The format of `toLocaleDateString()`. The download's date is the `date` parameter, so the model does not say how today's date is written.
- Row-level security is modelled only for the delayed profile fetch, whose query may be sent after a sign-out. Every other profile query is sent by the signed-in user for their own row.
- PageAnimator.Animate: `stagger` is modelled as an integer, while the source accepts any number.

## Findings

| source | as written | input that shows it | evidently intended | confidence | as-written member | corrected member |
|---|---|---|---|---|---|---|
| src/contexts/AuthContext.tsx:132 | The sign-in handler reads the pending OAuth role from `sessionStorage`. `signInWithGoogle` writes it to `localStorage` (src/services/auth.service.ts:159). | Google sign-up as designer that returns to a fresh merchant profile: the handler finds nothing and the role stays merchant. | Read the key from `localStorage`, where it was written. | high, not executed | AuthContext.GoogleSignUpRoleIsLost | AuthContext.IntendedOAuthRoleCorrection |
| src/contexts/AuthContext.tsx:144-148 | The stored role string is sent to the metadata update without validation. | A stored "admin" with a fresh merchant profile requests the role "admin". | Validate the stored role with `validateSignupRole`, which the service exports for this purpose. | medium, not executed | AuthContext.OAuthCorrectionForwardsAdmin | AuthContext.IntendedOAuthRoleCorrection |
| src/contexts/AuthContext.tsx:127-129 | The delayed profile fetch stores its answer whoever is signed in when the answer arrives. | Sign in; the 500 ms timer fires and sends its query while the user is still signed in; sign out before the answer arrives. The signed-out state keeps the previous user's profile. | Drop the result when the scheduled user is no longer the signed-in one. | medium, not executed | AuthContext.StaleProfileAfterSignOut | AuthContext.AuthProvider.FinishProfileFetchForCurrentUser |
| src/pages/SignUpConfirmationPage.tsx:26 | The display placeholder "your email" is also the address a resend is requested for. | Open the page without `?email=` and press resend. | Resend only to an address given in the query. | medium, not executed | SignUpConfirmationPage.ResendWithoutAddressUsesPlaceholder | SignUpConfirmationPage.IntendedResendTarget |
| src/pages/PrivacyPage.tsx:98 | The downloaded policy is dated with the day of the download. The page shows the fixed date of line 136. | Any download: `toLocaleDateString()` gives a numeric date such as "1/25/2026" in common locales, never the page's "January 25, 2026". | Date the download with the policy's own date. | low, not executed | PrivacyPage.DownloadDateFollowsClock | PrivacyPage.IntendedDownloadText |

The `AuthProvider` class, the resend form and `DownloadText` keep the behaviour as written. The corrected members stand beside them with their properties proved.
