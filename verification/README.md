# Prompt marketplace client logic in Dafny

This project models the decision logic of a React client for a prompt
marketplace backed by a hosted Postgres service. Each hook or page handler is
lifted out as a pure function. Every backend reply becomes an input value
(`Reply<T>`: `Rows(value)`, `Failed(DbError(code, message))` for a returned
error, `Threw(message)` for an exception). Toasts, inserted rows, procedure
calls and navigation targets become parts of the result.

Modules, one per source file of the core:

- `Types`: options, the authenticated user, backend replies, toasts.
- `Text`: the JavaScript string operations the client relies on: `trim`,
  ASCII `toLowerCase`, `includes`, `split('@')[0]`, UTF-16 length and the
  decimal rendering of an integer.
- `Catalog`: the browse page's filter and its platform/category selectors.
- `DemoSession`: the demo login with two fixed accounts.
- `AdminRole`: the fail-closed administrator check.
- `ProfileHook`: loading, lazily creating and updating the user's profile.
- `PromptClaim`: the claim handler and the claim button's caption.
- `PromptRequests`: the custom-request form and the request list's badges.
- `AuthForms`: sign-up/login schemas and the error-message translations.
- `ProfileSettings`: the username rule, the prefill and the save.

## Model

| member | source | states |
|---|---|---|
| `Text.Utf16Length` | src/pages/Auth.tsx:39 | a string's length in UTF-16 code units lies between its character count and twice that, and is 0 only for the empty string |
| `Text.Utf16LengthOfBmp` | src/pages/ProfileSettings.tsx:23 | for text of Basic Multilingual Plane characters the length zod measures is the character count |
| `Text.Trim` | src/components/dashboard/PromptRequestForm.tsx:48 | the result is the input with whitespace cut from both ends only: it is a slice of the input, ends in non-whitespace, and is empty iff the input is all whitespace |
| `Text.TrimIdempotent` | src/components/dashboard/PromptRequestForm.tsx:48 | trimming twice is trimming once |
| `Text.Lower` | src/components/dashboard/PromptRequestList.tsx:61 | lower-casing keeps the length and maps each character through the ASCII case mapping |
| `Text.LowerIdempotent` | src/pages/Browse.tsx:30 | lower-casing twice is lower-casing once |
| `Text.Includes` | src/pages/Browse.tsx:30 | `includes` holds iff the pattern occurs at some position of the text |
| `Text.IncludesEmpty` | src/pages/Browse.tsx:30 | every title includes the empty search term |
| `Text.BeforeFirst` | src/hooks/useProfile.ts:40 | the part before the first separator is a prefix free of the separator, followed by the separator or the end of the text |
| `Text.BeforeFirstOfJoin` | src/hooks/useProfile.ts:40 | splitting `a + c + b` at its first `c`, with `c` absent from `a`, gives back `a` |
| `Text.NatDecimal` | src/pages/PromptDetail.tsx:187 | a natural number renders as canonical digits (non-empty, no leading zero), starting with `0` only for zero |
| `Text.NatDecimalRoundTrip` | src/pages/PromptDetail.tsx:187 | reading back the digits of a natural number gives that number |
| `Text.IntDecimal` | src/pages/PromptDetail.tsx:187 | an integer renders as a numeral (canonical digits, with a minus sign only before non-zero digits), starting with `-` iff it is negative |
| `Text.IntDecimalRoundTrip` | src/pages/PromptDetail.tsx:187 | reading back the rendering of any integer gives that integer |
| `Text.NumeralRoundTrip` | src/pages/PromptDetail.tsx:187 | every numeral is the rendering of its own value, so rendering is a bijection onto numerals and never yields spellings such as `05` or `-0` |
| `Catalog.Filter` | src/pages/Browse.tsx:29-34 | the result is an order-preserving subsequence of the prompts, and a prompt is in it iff title, platform and category all match |
| `Catalog.FilteredPrompts` | src/pages/Browse.tsx:27-35 | nothing is shown before the prompts are fetched; afterwards exactly the matching prompts, in fetched order |
| `Catalog.FilterAppend` | src/pages/Browse.tsx:29-34 | filtering a concatenation is the concatenation of the filtered parts |
| `Catalog.FilterKeepsAll` | src/pages/Browse.tsx:30-33 | an empty search with both selectors on `all` keeps the list unchanged |
| `Catalog.InitialQueryShowsAll` | src/pages/Browse.tsx:23-35 | the page's initial controls show the whole fetched catalog |
| `Catalog.PlatformSelection` | src/pages/Browse.tsx:31 | with a platform other than `all` selected, every shown prompt has exactly that platform |
| `Catalog.Dedup` | src/pages/Browse.tsx:39 | de-duplication keeps exactly the input's values, each once |
| `Catalog.DedupFirstAppearance` | src/pages/Browse.tsx:39 | de-duplicated values appear in order of their first appearance in the input |
| `Catalog.DistinctInOrder` | src/pages/Browse.tsx:39 | the loop that tracks the values seen so far computes the first-appearance de-duplication |
| `Catalog.Facets` | src/pages/Browse.tsx:37-45 | a selector list is empty before fetching; otherwise it is `all` followed by each distinct value once, in first-appearance order |
| `Catalog.PlatformFacets` | src/pages/Browse.tsx:37-40 | after `all`, each platform of some prompt appears exactly once, and no other value does, in first-appearance order |
| `Catalog.CategoryFacets` | src/pages/Browse.tsx:42-45 | after `all`, each category of some prompt appears exactly once, and no other value does, in first-appearance order |
| `DemoSession.FindAccount` | src/components/DummyAuth.tsx:49-51 | an account is found iff one has both the given e-mail and password, and it is the first such account |
| `DemoSession.UserOf` | src/components/DummyAuth.tsx:53-60 | the session user carries the account's id, e-mail, role and name and nothing else |
| `DemoSession.Login` | src/components/DummyAuth.tsx:48-66 | login succeeds iff some account matches both fields; success installs that account's user; failure leaves the session as it was |
| `DemoSession.Logout` | src/components/DummyAuth.tsx:68-72 | after logout there is no session user, whatever came before |
| `DemoSession.IsAdmin` | src/components/DummyAuth.tsx:74-76 | a session is admin iff it has a user whose role is admin |
| `DemoSession.AdminCredentialsGiveAdmin` | src/components/DummyAuth.tsx:21-36 | logging in as admin@example.com/admin123 succeeds and makes the session admin |
| `DemoSession.UserCredentialsGiveNonAdmin` | src/components/DummyAuth.tsx:21-36 | logging in as user@example.com/user123 succeeds and the session is not admin |
| `DemoSession.LoginGrantsAdminOnlyToAdminAccount` | src/components/DummyAuth.tsx:21-66 | a successful login yields an admin session only with the admin account's credentials |
| `DemoSession.LogoutRevokesAdmin` | src/components/DummyAuth.tsx:68-76 | after logout the session is never admin |
| `AdminRole.CheckAdminRole` | src/hooks/useAdminRole.ts:13-61 | no user means not admin, no error and no call; the procedure is asked first and the role table only after it failed; admin only on a `true` answer or an admin row; an error is recorded iff no successful reply decided |
| `AdminRole.OnAuthChange` | src/hooks/useAdminRole.ts:63-65 | nothing is checked while auth is loading; once it has loaded the outcome is exactly that of the check for the current user |
| `AdminRole.View` | src/hooks/useAdminRole.ts:67-71 | the reported `loading` is the hook's own loading or auth's |
| `AdminRole.InitialViewIsLoadingNonAdmin` | src/hooks/useAdminRole.ts:8-9 | before the first check the hook reports not admin, loading, no error |
| `AdminRole.FailsClosed` | src/hooks/useAdminRole.ts:41-57 | from any earlier state, without a `true` answer or an admin row the user is not reported admin once the check has run, provided no earlier check still in flight overtakes it |
| `AdminRole.Render` | src/hooks/useAdminRole.ts:63-65 | the effect runs again only when the user or the auth flag changed |
| `AdminRole.RefetchAsWritten` | src/hooks/useAdminRole.ts:72-78 | `refetch()` as written sets loading and clears the error, changing neither effect dependency |
| `AdminRole.RefetchAsWrittenStaysLoading` | src/hooks/useAdminRole.ts:63-78 | after `refetch()` as written, the next render with the same user still reports loading |
| `AdminRole.Refetch` | src/hooks/useAdminRole.ts:72-78 | the intended `refetch()` runs the check again: not loading afterwards, admin only on positive evidence |
| `AdminRole.RefetchFinishes` | src/hooks/useAdminRole.ts:63-78 | with the intended `refetch()`, the next render reports a finished check |
| `ProfileHook.UsernameFor` | src/hooks/useProfile.ts:40 | the default username is the e-mail's part before its first `@`, or `user` when there is no e-mail or that part is empty |
| `ProfileHook.UsernameOfAddress` | src/hooks/useProfile.ts:40 | the address `name@domain` with a non-empty, `@`-free name yields `name` |
| `ProfileHook.DefaultProfileFor` | src/hooks/useProfile.ts:38-43 | a created profile has the user's id, the derived username, 10 credits and the free tier |
| `ProfileHook.FetchProfile` | src/hooks/useProfile.ts:15-61 | no user: no profile, not loading; a found row becomes the profile; the default row is inserted iff the lookup said "no row"; every other outcome keeps the previous profile and records the message of the reply that failed (the lookup's, or the insert's) |
| `ProfileHook.FirstVisitCreatesDefault` | src/hooks/useProfile.ts:33-43 | a first-time user `name@domain` gets the row (id, `name`, 10, `free`) |
| `ProfileHook.OnAuthChange` | src/hooks/useProfile.ts:63-66 | nothing is fetched while auth is loading; once it has loaded the outcome is exactly that of the fetch for the current user |
| `ProfileHook.ViewLoading` | src/hooks/useProfile.ts:91 | the reported `loading` is the hook's own loading or auth's |
| `ProfileHook.UpdateProfile` | src/hooks/useProfile.ts:68-87 | without a user or a profile nothing is sent or changed; success stores and returns the row; every failure re-raises the backend's message and records it, keeping the profile |
| `ProfileHook.UpdateOutcomeMatchesState` | src/hooks/useProfile.ts:79-86 | with a loaded profile, the caller gets the row iff the update succeeded and the hook then shows that row; a caught message is the one the hook reports, with the old profile |
| `ProfileHook.RetryAfterFailedUpdate` | src/hooks/useProfile.ts:69-86 | a failed update keeps the hook usable: the same update with a successful reply then stores the row |
| `ProfileHook.Render` | src/hooks/useProfile.ts:63-66 | the effect runs again only when the user or the auth flag changed |
| `ProfileHook.RefetchAsWritten` | src/hooks/useProfile.ts:94-100 | `refetch()` as written clears the profile and sets loading, changing neither effect dependency |
| `ProfileHook.RefetchAsWrittenLosesProfile` | src/hooks/useProfile.ts:63-100 | after `refetch()` as written, the next render with the same user shows no profile and is still loading |
| `ProfileHook.Refetch` | src/hooks/useProfile.ts:94-100 | the intended `refetch()` loads the profile again and ends not loading |
| `ProfileHook.RefetchReloads` | src/hooks/useProfile.ts:63-100 | with the intended `refetch()`, the next render shows the fetched row, not loading |
| `PromptClaim.ClassifyClaimError` | src/pages/PromptDetail.tsx:69-81 | a message containing `Insufficient credits` is the insufficient-credits notice; any other is a failure showing the message, or the fixed text when it is empty |
| `PromptClaim.HandleClaim` | src/pages/PromptDetail.tsx:49-99 | without a user or prompt: a notice and no call; otherwise one `claim_prompt` call for that prompt, the flag cleared; success, thrown errors and returned errors give their notices, a returned error classified as `ClassifyClaimError` says |
| `PromptClaim.GenericFailureShowsMessage` | src/pages/PromptDetail.tsx:75-81 | a returned error without the credits marker shows a destructive `Error` toast with the backend's message, or the fixed text when it is empty |
| `PromptClaim.NoticeToast` | src/pages/PromptDetail.tsx:50-95 | only the success toast is not destructive |
| `PromptClaim.ClaimAlwaysReenables` | src/pages/PromptDetail.tsx:96-98 | whatever the reply, a claim that reached the backend clears the claiming flag |
| `PromptClaim.IsUnlimited` | src/pages/PromptDetail.tsx:128-129 | unlimited iff a profile is loaded and its tier is exactly `unlimited` |
| `PromptClaim.DefaultProfileIsNotUnlimited` | src/pages/PromptDetail.tsx:128-129 | a profile on the tier given to new users is never unlimited, so such users pay for claims |
| `PromptClaim.ClaimButtonLabel` | src/pages/PromptDetail.tsx:177-198 | logged out, claiming and unlimited captions are fixed; otherwise the caption starts `Claim with ` |
| `PromptClaim.PricedLabelStatesCost` | src/pages/PromptDetail.tsx:184-188 | the priced caption reads back as exactly the prompt's cost, and ends in `s` iff the cost is not 1 |
| `PromptClaim.UnlimitedLabelIgnoresCost` | src/pages/PromptDetail.tsx:184-187 | on the unlimited tier the caption does not depend on the cost |
| `PromptRequests.ClassifySubmitError` | src/components/dashboard/PromptRequestForm.tsx:52-67 | an error is the request-limit notice iff its message contains `one pending request per week`, otherwise a generic failure |
| `PromptRequests.HandleSubmit` | src/components/dashboard/PromptRequestForm.tsx:20-88 | no user or all-whitespace details: a notice and no insert; otherwise one row (user id, trimmed details, `Pending`); only success clears the text and calls back exactly once |
| `PromptRequests.SubmitDisabled` | src/components/dashboard/PromptRequestForm.tsx:104 | the button is disabled iff loading or the details are all whitespace |
| `PromptRequests.EnabledSubmitSends` | src/components/dashboard/PromptRequestForm.tsx:32-50 | a click on an enabled button by a logged-in user always inserts a row |
| `PromptRequests.SubmittedFormIsDisabled` | src/components/dashboard/PromptRequestForm.tsx:76-104 | after a successful submission the button is disabled |
| `PromptRequests.NoticeToast` | src/components/dashboard/PromptRequestForm.tsx:23-84 | only the success toast is not destructive |
| `PromptRequests.StatusVariant` | src/components/dashboard/PromptRequestList.tsx:60-71 | lower-cased `pending` is secondary, `in progress` and `completed` default, everything else outline |
| `PromptRequests.StatusVariantIgnoresCase` | src/components/dashboard/PromptRequestList.tsx:61 | statuses that differ only in letter case get the same badge |
| `PromptRequests.KnownStatusVariants` | src/components/dashboard/PromptRequestList.tsx:61-67 | `Pending`, `In Progress` and `Completed` get secondary, default, default |
| `PromptRequests.FetchRequests` | src/components/dashboard/PromptRequestList.tsx:18-54 | no user: an empty list and no query; rows (or an empty list for `null`) replace the list; a failure keeps the previous list and raises a notice |
| `AuthForms.SignUpIssues` | src/pages/Auth.tsx:37-40 | sign-up passes iff the e-mail is well formed and the password has at least 6 UTF-16 code units, with one message per broken rule |
| `AuthForms.LoginIssues` | src/pages/Auth.tsx:42-45 | login passes iff the e-mail is well formed and the password is non-empty, with one message per broken rule |
| `AuthForms.SixCharactersSuffice` | src/pages/Auth.tsx:39 | any six characters satisfy the sign-up length rule |
| `AuthForms.AstralCharactersCountTwice` | src/pages/Auth.tsx:39 | three characters outside the BMP already satisfy it |
| `AuthForms.ShortBmpPasswordRejected` | src/pages/Auth.tsx:39 | fewer than six BMP characters break it |
| `AuthForms.FirstMatch` | src/pages/Auth.tsx:85-92 | a rule chain yields the text of the first rule whose marker the message includes, or the message itself |
| `AuthForms.SignUpErrorMessage` | src/pages/Auth.tsx:85-92 | the sign-up chain is the first-match reading of its three rules in order |
| `AuthForms.LoginErrorMessage` | src/pages/Auth.tsx:130-135 | the login chain is the first-match reading of its two rules in order |
| `AuthForms.GoogleErrorMessage` | src/pages/Auth.tsx:173-176 | the Google chain translates only the provider-disabled message |
| `AuthForms.SignUpFirstRuleWins` | src/pages/Auth.tsx:85-92 | a message naming both an existing account and the password is reported as an existing account |
| `AuthForms.UnmatchedMessagesPassThrough` | src/pages/Auth.tsx:85-176 | a message matching no rule is shown unchanged by all three chains |
| `AuthForms.RedirectFor` | src/pages/Auth.tsx:53-58 | a signed-in visitor is sent to `/dashboard`, nobody else |
| `AuthForms.LoginLandsWhereSignedInUsersGo` | src/pages/Auth.tsx:53-58 | a successful login navigates to the same route the page sends signed-in visitors to |
| `AuthForms.SubmitLogin` | src/pages/Auth.tsx:118-159 | an invalid form sends nothing and is rejected with exactly the schema's messages; a login navigates to `/dashboard` iff it succeeds; a returned error is shown through the login chain |
| `AuthForms.SubmitSignUp` | src/pages/Auth.tsx:70-116 | an invalid form sends nothing and is rejected with exactly the schema's messages; the form is cleared iff sign-up succeeds; a returned error is shown through the sign-up chain |
| `AuthForms.StartGoogleLogin` | src/pages/Auth.tsx:161-193 | a toast appears iff the start fails, and a returned error goes through the Google chain |
| `ProfileSettings.UsernameIssues` | src/pages/ProfileSettings.tsx:22-24 | a username passes iff its length is from 3 to 20 UTF-16 code units, with the too-short and too-long messages exactly for the broken bounds and no other message |
| `ProfileSettings.BmpUsernameRule` | src/pages/ProfileSettings.tsx:23 | for BMP text the rule is 3 to 20 characters |
| `ProfileSettings.LoadUsername` | src/pages/ProfileSettings.tsx:42-63 | the form is filled iff the row has a non-empty username; "no row" is not an error; any other failure gives a destructive toast with the reply's message |
| `ProfileSettings.MissingRowIsTolerated` | src/pages/ProfileSettings.tsx:52 | a user without a row sees an empty form and no toast |
| `ProfileSettings.SaveUsername` | src/pages/ProfileSettings.tsx:65-83 | an invalid name sends nothing and is rejected with exactly the schema's messages; no user does nothing; otherwise only the username of the user's own row is updated, navigating to `/dashboard` iff it succeeds; a failure's toast carries the backend's message |
| `ProfileSettings.PrefillSavesBack` | src/pages/ProfileSettings.tsx:54-77 | saving the prefilled form unchanged writes back the stored username, when it meets the rule |
| `ProfileSettings.GuardRedirect` | src/pages/ProfileSettings.tsx:36-40 | a visitor is sent to `/auth` iff auth has finished loading and nobody is signed in |
| `ProfileSettings.SettingsAndSignInRedirectsComplement` | src/pages/ProfileSettings.tsx:36-40 | once auth has loaded, exactly one of the settings page and the sign-in page redirects a visitor; while auth loads the settings page does not |

## Left out

- `AdminRole.FailsClosed`: holds for one check run at a time. The effect at src/hooks/useAdminRole.ts:12-66 has no cleanup and no cancelled flag, so a superseded check's late reply still calls `setIsAdmin` (lines 44, 48, 52). If admin A's call is still in flight when the user switches to B, A's `true` can overwrite B's `false`. Overlapping effect runs are not modelled.
- `AdminRole.OnAuthChange`: models one effect run from start to reply. Overlapping runs after a change of user are not modelled, and a superseded run's late reply can overwrite the state.
- `ProfileHook.OnAuthChange`: models one effect run from start to reply. The effect at src/hooks/useProfile.ts:15-66 has no cancellation, so a superseded fetch's late `setProfile` (lines 48, 53) can show the previous user's profile. Overlapping runs are not modelled.
- Server-side logic: the `claim_prompt` procedure's balance and duplicate checks, the weekly request limit, row-level security and `is_admin`. Only their replies are modelled, as `Reply` inputs.
- Backend calls, toasts, navigation, `console` logging and `localStorage` persistence of the demo session are I/O. Replies are inputs; toasts, rows, calls and routes are outputs.
- The intermediate states inside an `async` handler (`loading` while a call is in flight) are not modelled. Each handler goes from the state before the click to the state after the reply.
- Rendering, JSX and route wiring: `App.tsx`, `Index.tsx`, `PromptCard.tsx`, the layout components, `Logo.tsx`, both `AdminSetup` files and the demo login page's form. `AdminPanel.tsx`, `Dashboard.tsx` and `adminUtils.ts` are not part of this model.
- `i18n.ts` string tables are not part of this model; the toasts keep the literal texts of the handlers.
- zod's e-mail format check enters the auth forms as a boolean input.
- `Text.Lower`: maps only ASCII letters, not the full Unicode lower-casing of `toLowerCase`.
- `Text.Includes` compares Unicode scalar values, not UTF-16 code units. A Dafny string holds only scalar values, and for well-formed UTF-16 text, substring search by code unit and by character agree. Only strings with lone surrogates differ, and the model cannot represent them.
- `PromptClaim.ClaimButtonLabel`: costs are integers; fractional or exponent renderings of a JavaScript number are not modelled.
- `AdminRole.Render` and `ProfileHook.Render`: dependencies are compared by value, whereas React compares the `user` object by reference. A new but equal user object would re-run the effect in the source.
- The demo session user's optional `name` is always present for the two fixed accounts; the model keeps it as an `Option`.
- `Catalog.Facets`: a prompt whose platform or category is literally `all` makes `all` appear twice in the selector. The model keeps this behaviour, and its contract speaks only of the values after the leading `all`.

## Findings

| source | as written | input that shows it | evidently intended | confidence | as-written member | corrected member |
|---|---|---|---|---|---|---|
| src/hooks/useAdminRole.ts:72-78 | `refetch()` sets `loading` and clears `error`, relying on the effect to run again, but the effect depends only on `user` and `authLoading`, which it does not change | a signed-in user, auth loaded, calls `refetch()`; the next render has the same dependencies | the role check runs again and `loading` returns to false | not executed | `AdminRole.RefetchAsWrittenStaysLoading` | `AdminRole.RefetchFinishes` |
| src/hooks/useProfile.ts:94-100 | `refetch()` sets the profile to `null` and `loading` to true, relying on the effect to run again, but the effect depends only on `user` and `authLoading` | a signed-in unlimited-tier user submits a prompt request on the dashboard, which passes `refetch` as `onRequestSubmitted` (src/pages/Dashboard.tsx:114); the next render has the same dependencies, so the dashboard stays on its loading screen (src/pages/Dashboard.tsx:24-26) | the profile is fetched again and shown | not executed | `ProfileHook.RefetchAsWrittenLosesProfile` | `ProfileHook.RefetchReloads` |
