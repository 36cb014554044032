# FounderFlow decision logic in Dafny

FounderFlow is a project-management web app for a founder or agency. Its
projects, tasks, clients, finances and team members live on a hosted
Postgres/Auth/Storage platform, and it sends mail through a transactional
e-mail provider. Most of the code is presentational. This project models the
small pieces of local decision logic in it:

- **Auth context** (`Auth`, `src/lib/auth.tsx`). The record
  (user, session, loading, userRole) is updated by four discrete events:
  an auth change, the initial `getSession` answer, a role lookup completing,
  and sign-out. The flags `isAdmin`, `isClient` and `isOutsourced` are derived
  from that record.
- **Project detail panel** (`ProjectDetail`). Which sections each role sees,
  the `N/A` and zero fallbacks, the balance, the status colours, and the
  add-task form: who can see it, the row it inserts, and how it resets.
- **Dashboard** (`Dashboard`). The counts and sums of `fetchStats`, the
  admin gating of the finance figures, and the project-status bars.
- **Dashboard card** (`DashboardCard`). Click dispatch and clickability.
- **Settings page** (`Settings`). Avatar initials, the avatar storage key,
  and the outcomes of uploading an avatar, loading the profile and saving it.
- **Forgot password** (`ForgotPassword`). The submit flow.
- **Edge functions** (`DeleteUser`, `ConfirmationEmail`, `SendEmail`, with
  `Http` and `VerifyLink` shared). Each request handler is a pure decision
  function from the request and the answers of the services it calls to an
  HTTP response.

Money is integer cents. Every platform call is an input: a value, or a
function of the arguments the code passes it. This covers queries, storage,
`getUser`, `has_role`, `deleteUser`, webhook signature checks, the zod e-mail
validator, and the Resend API. `Math.random()` is a string parameter.
Navigation and toasts are recorded as outputs.

Behaviours of the code worth knowing, each stated by the model as the code has it:

- A role lookup that completes after the user changed still sets the role.
  `Auth.StaleLookupOverwritesRole` replays sign-in A, sign-out, sign-in B,
  with A's lookup answering last: B ends up with A's role.
- The budget (total, paid, balance) and the client contact details are shown
  to every role except `outsourced`, including member, client and a role that
  has not been resolved yet.
- Only `active` and `completed` projects are counted; every other status,
  `ongoing` included, falls into the "Ongoing" bar as
  `total − active − completed`.
- The local `signOut` only clears the role and navigates to `/auth`. The user
  and the session are cleared by the provider's own auth-change event, which
  is a separate event in the model.

## Model

| member | source | states |
|---|---|---|
| Auth.Initial | src/lib/auth.tsx:33-36 | the initial state has no session and nobody signed in, is loading, has no role, and sets no role flag |
| Auth.RoleFlagsExclusive | src/lib/auth.tsx:39-41 | at most one of isAdmin/isClient/isOutsourced holds; a `member` or absent role sets none |
| Auth.OnAuthChange | src/lib/auth.tsx:45-58 | an auth change publishes the session and its user (user present iff the session carries one); with a user it keeps the role and requests exactly one lookup for that user; without one it clears the role |
| Auth.OnInitialSession | src/lib/auth.tsx:62-70 | the getSession answer publishes the session, requests a lookup iff there is a user, always ends loading, and never clears the role |
| Auth.OnRoleLookup | src/lib/auth.tsx:75-87 | a completed lookup sets the row's role, or `member` with no row, so the role is set afterwards; user, session and loading are untouched |
| Auth.OnSignOut | src/lib/auth.tsx:89-93 | sign-out clears the role (no flag holds) and navigates to `/auth`, leaving user and session for the provider's event |
| Auth.LastSessionWins | src/lib/auth.tsx:45-70 | after any sequence of events, session and user are those of the last event carrying a session, whatever the lookups do; user/session consistency is preserved |
| Auth.LoadingUntilInitialSession | src/lib/auth.tsx:35-69 | after a run, loading holds iff it held before and no getSession answer was delivered |
| Auth.StaleLookupOverwritesRole | src/lib/auth.tsx:51-87 | with sign-in A, sign-out, sign-in B and A's lookup answering last, B is the user and holds A's `admin` role |
| Auth.LookupIgnoresIssuer | src/lib/auth.tsx:75-87 | a lookup completion has the same effect whichever user it was issued for |
| Auth.SignInThenLookup | src/lib/auth.tsx:51-54 | after a fresh sign-in the user is known with no role until the lookup completes, which then sets the row's role or `member` |
| ProjectDetail.SensitiveHiddenOnlyFromOutsourced | src/components/ProjectDetailPanel.tsx:140-141 | sensitive sections are hidden iff the role is `outsourced`; they are shown for admin, member, client and an absent role |
| ProjectDetail.Balance | src/components/ProjectDetailPanel.tsx:244 | balance plus paid (null as zero) equals total (null as zero); with no payment the balance is the total |
| ProjectDetail.StatusColor | src/components/ProjectDetailPanel.tsx:126-136 | a class is returned iff the status is one of the six known ones; green, blue and grey each go to exactly their two statuses |
| ProjectDetail.View | src/components/ProjectDetailPanel.tsx:138-267 | no project gives no panel; stakeholder and budget sections are present iff the role is not `outsourced`; the add-task button shows iff admin; an empty description shows `No description provided`; a shown stakeholder section holds the client details with `N/A` fallbacks and a shown budget holds total, paid and balance |
| ProjectDetail.StakeholderOf | src/components/ProjectDetailPanel.tsx:204-212 | each of client name, e-mail and phone is shown as given when non-empty, else `N/A` |
| ProjectDetail.BudgetOf | src/components/ProjectDetailPanel.tsx:228-246 | total and paid with null as zero, and balance = total − paid |
| ProjectDetail.OutsourcedRedaction | src/components/ProjectDetailPanel.tsx:195-250 | an outsourced viewer sees neither stakeholder nor budget section, nor the add-task button |
| ProjectDetail.PlanFetches | src/components/ProjectDetailPanel.tsx:67-74 | tasks are fetched iff a project is open; members only when, in addition, the viewer is admin |
| ProjectDetail.AddTaskAdminOnly | src/components/ProjectDetailPanel.tsx:258-271 | the add-task form and button are visible only to admins, and non-admins never fetch members |
| ProjectDetail.ToggleForm | src/components/ProjectDetailPanel.tsx:262 | the add-task button flips the form's visibility and keeps its fields |
| ProjectDetail.InsertRecord | src/components/ProjectDetailPanel.tsx:102-107 | the inserted task keeps the form's fields, has project_id = project.id and created_by = user.id, and is assigned to the form's choice or else the creator |
| ProjectDetail.AddTask | src/components/ProjectDetailPanel.tsx:97-124 | an insert happens iff project and user are present; success closes and empties the form (status `todo`) and refetches; an error keeps the form and shows the message |
| ProjectDetail.SuccessfulAddResetsForm | src/components/ProjectDetailPanel.tsx:111-119 | after success the form is closed and empty, so the next record defaults to the creator and `todo` |
| ProjectDetail.TasksAfterFetch | src/components/ProjectDetailPanel.tsx:76-88 | a failed task fetch keeps the list; a null answer empties it |
| Dashboard.ComputeStats | src/pages/Dashboard.tsx:29-70 | totals are row counts; active, completed and done counts are the multiplicities of those statuses; active + completed ≤ total; pending ≤ total; non-admins get zero finance figures; for admins earnings are the sum of the `income` rows, expenses the sum of the `expense` rows, and profit the signed total |
| Dashboard.Refresh | src/pages/Dashboard.tsx:29-76 | loading ends whether fetchStats answers or throws; a throw keeps the old statistics |
| Dashboard.ProjectBars | src/pages/Dashboard.tsx:78-82 | three bars in order: Active carries the active count, Completed the completed count, and Ongoing the rest, so that the three add up to the project count |
| Dashboard.OngoingNonNegative | src/pages/Dashboard.tsx:78-82 | the "Ongoing" bar is never negative for statistics the dashboard shows |
| Dashboard.CountEqIsMultiplicity | src/pages/Dashboard.tsx:37-38 | counting rows with a status equals that status's multiplicity |
| Dashboard.CountDisjoint | src/pages/Dashboard.tsx:37-38 | counts of two different statuses add up to at most the row count |
| Dashboard.PendingComplementsDone | src/pages/Dashboard.tsx:45-46 | pending tasks plus done tasks is the task count |
| Dashboard.FilterSumIsKindTotal | src/pages/Dashboard.tsx:57-58 | filtering the finance rows by type and summing their amounts gives that type's total |
| Dashboard.ProfitIsSignedTotal | src/pages/Dashboard.tsx:57-69 | income sum − expense sum equals the signed total; rows of other types are ignored |
| Dashboard.NonAdminIgnoresFinance | src/pages/Dashboard.tsx:48-59 | for a non-admin the finance answer does not affect the statistics |
| Dashboard.AdminFinanceScenario | src/pages/Dashboard.tsx:53-69 | incomes 500 and 300 and an expense 200 give earnings 800, expenses 200 and profit 600 |
| DashboardCard.HandleClick | src/components/DashboardCard.tsx:27-33 | an onClick is called and wins over navigation; otherwise it navigates to a non-empty `to`; with neither, nothing happens |
| DashboardCard.ClickableIffEffect | src/components/DashboardCard.tsx:27-35 | the card is clickable iff a click has an effect |
| DashboardCard.IconColor | src/components/DashboardCard.tsx:21 | the icon colour defaults to `text-primary` only when the prop is absent |
| DashboardCard.SubtitleLine | src/components/DashboardCard.tsx:51-53 | a subtitle line is rendered only with the subtitle itself, non-empty, and always when the subtitle is non-empty |
| DashboardCard.BlankSubtitleHidden | src/components/DashboardCard.tsx:51-53 | an absent or empty subtitle renders no line |
| Settings.Initials | src/pages/Settings.tsx:119-129 | with a name: the upper-cased word-starting letters, at most two; without a name: the e-mail's first two characters upper-cased, or `U` when there is no e-mail or it is empty |
| Settings.HeadsOfSplit | src/pages/Settings.tsx:121-124 | the first characters of the space-separated pieces are exactly the word-starting characters; empty pieces add nothing |
| Settings.BlankNameHasNoInitials | src/pages/Settings.tsx:120-126 | a name made only of spaces gives empty initials, not `U` |
| Settings.FileExt | src/pages/Settings.tsx:54 | the extension has no dot and is a suffix of the name, preceded by a dot when the name has one, and the whole name otherwise |
| Settings.AvatarPath | src/pages/Settings.tsx:55 | the key is the user id, `/`, the random part, `.` and the extension, in that order and nothing else |
| Settings.AvatarPathDetermines | src/pages/Settings.tsx:54-55 | within one user's folder a key determines the random part and the extension, even when the random part contains dots |
| Settings.AvatarPathKeepsExt | src/pages/Settings.tsx:54-55 | the extension read back from the key is the file's extension |
| Settings.UploadAvatar | src/pages/Settings.tsx:45-90 | with no file nothing is uploaded; the profile is updated only after a successful upload; the avatar URL changes only when both succeed; a failed upload or profile update shows the destructive `Error` toast with its message, and success a non-destructive toast; uploading ends false |
| Settings.UploadKeepsExtension | src/pages/Settings.tsx:53-61 | the object written to storage has the chosen file's extension |
| Settings.ProfileRoundTrip | src/pages/Settings.tsx:26-43 | the row written by a successful save and a successful avatar update loads back as the saved name and the new avatar URL |
| Settings.LoadProfile | src/pages/Settings.tsx:26-43 | a row sets both fields (null as empty); no row or an error leaves them unchanged |
| Settings.SaveProfile | src/pages/Settings.tsx:92-117 | the name is written under the user's id, the toast is destructive iff there was an error, and loading ends |
| Common.JoinSplit | src/pages/Settings.tsx:122 | joining the pieces of a split restores the string |
| Common.LastPieceIsSuffix | src/pages/Settings.tsx:54 | the last split piece is the text after the last separator, or the whole string |
| Common.SplitNoSep | src/pages/Settings.tsx:54 | a name with no dot splits into one piece, itself, so `.pop()` returns the whole name |
| Common.SplitPiecesLackSep | src/pages/Settings.tsx:122 | no piece of `split(' ')` contains a space |
| Common.SplitAppend | src/pages/Settings.tsx:54 | a separator between two strings splits them independently: the pieces are those of the left part followed by those of the right |
| ForgotPassword.RedirectUrl | src/pages/ForgotPassword.tsx:37 | the redirect is the origin followed by `/reset-password` |
| ForgotPassword.HandleSubmit | src/pages/ForgotPassword.tsx:21-58 | a reset request is made iff the address is valid; invalid shows `Invalid email address`; emailSent becomes true only on a reset with no error; an error shows its message; loading ends on every path |
| ForgotPassword.SentAfterSubmissions | src/pages/ForgotPassword.tsx:17-58 | over any series of submissions `emailSent` never returns to false, and from the fresh form it becomes true exactly when some submission had a valid address and an error-free reset request |
| Http.Preflight | supabase/functions/delete-user/index.ts:10-12 | a preflight has status 200, no body, and the CORS headers |
| Http.JsonResponse | supabase/functions/delete-user/index.ts:87-93 | a JSON response carries the CORS headers and `Content-Type: application/json` |
| DeleteUser.ErrorResponse | supabase/functions/delete-user/index.ts:94-103 | a caught error gives 500 with its message, or `An unknown error occurred` for a non-Error |
| DeleteUser.Handle | supabase/functions/delete-user/index.ts:8-105 | every response carries CORS; deleteUser is invoked iff every check passes, and with the body's userId; the status is 200 iff preflight or a deletion without error, and 403 iff an authenticated caller is not an admin; every other failure is 500 |
| DeleteUser.PreflightShortCircuits | supabase/functions/delete-user/index.ts:10-12 | OPTIONS answers the preflight with no further check |
| DeleteUser.MissingHeaderRejected | supabase/functions/delete-user/index.ts:16-19 | a missing or empty header gives 500 `No authorization header` |
| DeleteUser.UnauthenticatedRejected | supabase/functions/delete-user/index.ts:33-40 | a getUser error or no user gives 500 `Unauthorized` |
| DeleteUser.NonAdminForbidden | supabase/functions/delete-user/index.ts:44-59 | a non-admin gets 403 `Only admins can delete users`; the body is not read and nothing is deleted |
| DeleteUser.UnparsableBodyRejected | supabase/functions/delete-user/index.ts:61-62 | an admin whose body fails to parse gets 500 with the parser's message after the body was read, and nothing is deleted |
| DeleteUser.MissingUserIdRejected | supabase/functions/delete-user/index.ts:61-65 | an admin without a userId gets 500 `User ID is required`, and nothing is deleted |
| DeleteUser.DeletionAnswer | supabase/functions/delete-user/index.ts:75-93 | the delete error maps to 500 with its message; no error maps to 200 with `User deleted successfully` |
| DeleteUser.MemberCannotDelete | supabase/functions/delete-user/index.ts:44-59 | a member deleting `u` gets 403 and `u` is not deleted |
| VerifyLink.Build | supabase/functions/send-confirmation-email/index.ts:37 | the link starts with base + `/auth/v1/verify?token=`, ends with the redirect, and its length is the sum of its parts |
| VerifyLink.ParseBuild | supabase/functions/send-confirmation-email/index.ts:37 | when no component contains `&`, the link reads back as exactly the hash, type and redirect it was built from |
| VerifyLink.UnencodedRedirectBreaksLink | supabase/functions/send-confirmation-email/index.ts:37 | an `&` in the redirect, which is not encoded, stops the link from reading back |
| ConfirmationEmail.ConfirmLink | supabase/functions/send-confirmation-email/index.ts:36-37 | an unset SUPABASE_URL gives an empty base; the link carries the payload's hash, type and redirect |
| ConfirmationEmail.Handle | supabase/functions/send-confirmation-email/index.ts:13-102 | OPTIONS gives a preflight; a failed verification gives 500 and no mail; otherwise one mail to exactly `[user.email]` with the confirm link; a send error gives 500 with its message, success gives 200 `{success:true}`; CORS always |
| SendEmail.ConfirmLink | supabase/functions/send-email/index.ts:22-23 | same link as the signed hook when SUPABASE_URL is set; otherwise the base is the text `undefined` |
| SendEmail.FailureMessage | supabase/functions/send-email/index.ts:75-78 | a non-ok reply reports the provider's message, or `Failed to send email` when that is missing or empty |
| SendEmail.Handle | supabase/functions/send-email/index.ts:10-96 | OPTIONS gives a preflight; a bad payload gives 500; otherwise one mail to exactly `[user.email]`; 200 `{success:true}` iff the reply is ok; CORS always |
| SendEmail.UnsetBaseDiffers | supabase/functions/send-email/index.ts:22-23 | with SUPABASE_URL unset, the two variants' links differ by the `undefined` prefix |

## Left out

- JSX rendering, Tailwind classes other than the status map, charts, and the sheet/card widgets: these are presentational.
- Dates (`toLocaleDateString`), `toFixed(2)`, and floating-point money: amounts are integer cents, and there is no display formatting.
- React effect scheduling, the `setTimeout(…, 0)` deferral, and listener subscribe/unsubscribe: only the order in which events are delivered is modelled.
- The HTML e-mail bodies, `new Date().getFullYear()`, and the Resend SDK and HTTP call: the message is reduced to its sender, recipients, subject and confirm link.
- Webhook signature checks (standardwebhooks) and the zod e-mail check: these are foreign libraries. They appear as a verification result and as an uninterpreted predicate.
- Request parsing in the edge functions: `req.json()` and destructuring are reduced to "parsed, or threw with a message".
- DeleteUser.Handle: `userId` is modelled as an optional string. JSON non-string values (numbers, booleans) are not modelled.
- Settings.Initials: `toUpperCase` maps ASCII letters only. Unicode case mapping, including mappings that change length, is not modelled.
- Settings.Initials: `n[0]` and `slice(0, 2)` count UTF-16 code units in the source but whole characters here, so a name or e-mail address whose first characters lie outside the Basic Multilingual Plane (an emoji, say) gives different initials.
- Console logging in every file, and the `Sign Out` button in Settings, which calls `Auth.OnSignOut`: no decision logic.
- Routing itself: navigation is recorded as the path navigated to.
