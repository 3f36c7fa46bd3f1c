# FNOL Pro claim intake — a Dafny model

FNOL Pro is a small web application for insurance "first notice of loss"
claims. A signed-in client files a claim through a three-step form. An
administrator moves the claim between the statuses `NEW`, `IN_REVIEW` and
`CLOSED`. Every change is recorded in an activity log. Users can also
download a certificate of insurance branded with their insurer's name and
colour.

This project models the application's rules in Dafny and proves properties
of them. It has one module per source file:

- `CertificateUtils` covers the branding table, the insurer lookup, the
  security token and the certificate document
  (src/lib/certificate-utils.ts).
- `ClaimNumbers` covers the `FNOL-` claim number that both claim actions
  generate.
- `ClaimLifecycle` covers the claim store with its activity log, and the
  `createClaim` and `updateClaimStatus` server actions
  (src/actions/claims.ts, src/actions/admin.ts). The store is a class; each
  action is a method that writes the claim first and the log entry second.
- `DemoClaims` and `DemoAdmin` cover the stateless demo versions of the two
  actions (actions/claims.ts, actions/admin.ts). They are functions.
- `AuthActions` covers registration and the insurer update over the user
  table (src/actions/auth.ts).
- `AuthOptions` covers sign-in against the fixed demo accounts and the
  `jwt`/`session` callbacks, which update the token and the session in
  place (src/lib/auth-options.ts).
- `FnolForm` covers the form's schema, its step counter, the search for the
  claim number in the action's message, and the record the form saves in
  the browser (components/forms/fnol-form.tsx).
- `ClaimsList` covers merging the demo claims with the server's claims, an
  in-place newest-first sort, badge colours and status labels
  (components/claims-list-client.tsx).
- `Sidebar` covers the navigation entries and which one is highlighted
  (src/components/dashboard/sidebar.tsx).
- `JsText` restates the JavaScript behaviour the code relies on: ASCII
  `toUpperCase`, `substring`, `startsWith`, `includes`, number-to-text, and
  `Math.random()` as a fraction in [0, 1).

External influences are inputs to the model:

- The clock (`Date.now()`, `toLocaleDateString`, `getFullYear`) and every
  `Math.random()` draw are parameters.
- The ids the database assigns are parameters.
- A failing database call is a boolean parameter.
- bcrypt is the function parameter `hash`.
- zod's email check is the predicate parameter `isEmail`.

Some behaviours of the code are easy to miss, and the model keeps them:

- **Server validation.** The database-backed `createClaim` never validates
  its input. `claimSchema` is declared but never called, so any data is
  stored, for example a claim with a three-letter description. The
  scenario `ClaimLifecycle.CreateThenCloseTwice` shows this.
- **Atomicity.** Neither action is atomic. The claim write and the log write
  are separate, and if the second one fails the first one stays. A status
  change can therefore exist without its log entry.
- **Name lookup.** Insurer names are only upper-cased, never trimmed, so
  " MAPFRE" is not recognised.
- **Fallback name.** The fallback insurer's name is "Seguros Global".
- **Case-insensitivity** holds for recognised names only. An unknown name is
  shown exactly as typed, so "Acme" and "ACME" give different results.
- **Certificate rendering** never fails, even when the user's data is
  incomplete. A missing name or email is written as "undefined", and a
  `null` one as "null".

## Model

| member | source | states |
|---|---|---|
| CertificateUtils.GetCompanyBranding | src/lib/certificate-utils.ts:8-49 | for every input, the secondary colour is white and the primary colour is one of the five table colours; the result is a table entry, or else it has the generic colour and carries the given name |
| CertificateUtils.MissingNameIsGeneric | src/lib/certificate-utils.ts:29-37 | a missing or empty name yields the GENERIC entry, named "Seguros Global" |
| CertificateUtils.KnownNameGivesEntry | src/lib/certificate-utils.ts:38-42 | a name whose upper-cased form is a table key yields exactly that entry |
| CertificateUtils.AllianzInLowerCase | src/lib/certificate-utils.ts:14-42 | "allianz" yields name "Allianz" and colour "#003781" |
| CertificateUtils.UnknownNameKeepsText | src/lib/certificate-utils.ts:44-48 | an unrecognised non-empty name keeps the typed text as its name and gets the generic colours |
| CertificateUtils.LookupIgnoresCase | src/lib/certificate-utils.ts:38-42 | a name and its upper-cased form are recognised together and get the same colours; a recognised name gets the same entry |
| CertificateUtils.UnknownNameIsCaseSensitive | src/lib/certificate-utils.ts:45-48 | for an unknown name, the result depends on letter case ("Acme" differs from "ACME") |
| CertificateUtils.PaddedNameIsNotRecognised | src/lib/certificate-utils.ts:38-40 | the name is not trimmed: " MAPFRE" gets the generic colours and keeps its leading space |
| CertificateUtils.TokenHalf | src/lib/certificate-utils.ts:222 | applying `substring(2, 10)` and upper-casing to the base-36 text of a draw gives at most 8 upper-case base-36 characters |
| CertificateUtils.SecurityToken | src/lib/certificate-utils.ts:222 | the token is two such groups joined by "-" |
| CertificateUtils.GenerateCertificateHTML | src/lib/certificate-utils.ts:51-238 | the document contains the user's name and email as a template literal writes them (a missing one as "undefined", `null` as "null"), the insurer's name and its upper-cased form, the primary colour, the issue date, the security token and the year |
| CertificateUtils.IncompleteUserStillRenders | src/lib/certificate-utils.ts:51-195 | a user with no name and a `null` email still gets a document, which contains "undefined" and "null" |
| CertificateUtils.DocumentsDifferOnlyInDateAndToken | src/lib/certificate-utils.ts:52-237 | for the same user, insurer and year, two documents share all text except the issue date and the token, so fixed inputs give identical output |
| CertificateUtils.DocumentLayout | src/lib/certificate-utils.ts:53-237 | the document is the text before the date, the date, the text up to the token, the token, and the remainder |
| ClaimNumbers.ClaimNumberValue | src/actions/claims.ts:31 | the random part is in [100000, 999999] |
| ClaimNumbers.ClaimNumber | src/actions/claims.ts:31 | the claim number is "FNOL-" followed by exactly six digits |
| ClaimNumbers.ClaimNumberEncodesValue | src/actions/claims.ts:31 | the six digits read back as the drawn value |
| ClaimLifecycle.StatusDetails | src/actions/admin.ts:33-34 | the log details start with "Status changed to ", the new status and " by admin ", and contain the admin's name; with a non-empty note they end with "Note: " and the note, and otherwise they end with ". " |
| ClaimLifecycle.EmptyNoteIsNoNote | src/actions/admin.ts:25-34 | an empty note is treated as no note |
| ClaimLifecycle.StatusNameInjective | src/actions/admin.ts:33 | distinct statuses appear as distinct text |
| ClaimLifecycle.StatusDetailsIdentifyStatus | src/actions/admin.ts:33-34 | two log entries with the same details record the same status, whatever the admin names and notes |
| ClaimLifecycle.CreatedDetails | src/actions/claims.ts:50 | the creation entry's details contain the user's name and email |
| ClaimLifecycle.NewClaim | src/actions/claims.ts:31-39 | the new claim copies the input, takes the session user's id, has status NEW and no notes, and has a well-formed claim number |
| ClaimLifecycle.WithStatus | src/actions/admin.ts:21-27 | the status becomes the requested one, whatever it was before; the notes change only for a non-empty note; every other field is kept |
| ClaimLifecycle.ClaimStore.CreateClaim | src/actions/claims.ts:23-65 | with no session, the error is "Unauthorized" and nothing changes; success happens exactly when there is a session and both writes succeed; the new claim is stored under its id, followed by one CLAIM_CREATED entry; if the log write fails, the claim stays stored and no entry is added; the input is never validated; every log entry refers to a stored claim |
| ClaimLifecycle.ClaimStore.UpdateClaimStatus | src/actions/admin.ts:9-44 | a caller who is not an admin gets the admin-required error and nothing changes; an unknown id fails before the log write and adds no entry; on success the claim is updated first and exactly one STATUS_UPDATED entry is appended, even when the status is unchanged; other claims stay unchanged |
| ClaimLifecycle.CreateThenCloseTwice | src/actions/claims.ts:23-65 | any data is stored for a signed-in client, whatever its description; the client cannot close the claim; closing it twice as an admin gives three log entries and keeps the note from the first call |
| DemoClaims.CreateClaim | actions/claims.ts:28-50 | the demo action always returns success and never an error; the claimId is "demo-" followed by the timestamp; the message contains the generated claim number |
| DemoClaims.NoSessionRequired | actions/claims.ts:29-34 | a signed-out caller gets the same answer as a signed-in one |
| DemoClaims.MessageNamesValidNumber | actions/claims.ts:37-48 | the answer's message is the fixed head, then "FNOL-" and the six-digit text of a number in [100000, 999999], then the fixed tail |
| DemoAdmin.UpdateClaimStatus | actions/admin.ts:8-31 | exactly an admin gets success; anyone else gets the Spanish "No autorizado" error; the success message names the status |
| DemoAdmin.AnswerIgnoresClaimAndNote | actions/admin.ts:8-31 | the claim id and the note do not affect the answer; no state is involved |
| AuthActions.RegisterIssues | src/actions/auth.ts:7-15 | the registration form is accepted exactly when the name has at least 2 characters, the email is valid and the password has at least 6 characters; each failing rule contributes its message |
| AuthActions.DrawCompany | src/actions/auth.ts:27-28 | the company drawn is one of MAPFRE, ALLIANZ, AXA and OCCIDENT |
| AuthActions.DrawnCompanyHasBranding | src/actions/auth.ts:27-28 | every company drawn is a recognised table entry, never the generic fallback |
| AuthActions.UserStore.Register | src/actions/auth.ts:13-44 | an invalid form is rejected with its issues; an email already registered gives "User already exists" and no user is added; a fault in the lookup or the insert returns that fault's message; a new user has role CLIENT, the hash of the password and a drawn company; success returns the new id; the emails stay unique |
| AuthActions.UserStore.UpdateUserCompany | src/actions/auth.ts:50-70 | with no session, the result is "Unauthorized" and nothing changes; otherwise the session user's company becomes the upper-cased name, and other users stay unchanged |
| AuthActions.StoredCompanyBrandsAsTyped | src/actions/auth.ts:60 | the stored name is upper case, and for a recognised name it brands a certificate the same way the typed name would |
| AuthActions.RegisterTwice | src/actions/auth.ts:17-23 | registering the same email twice adds one user: the second attempt fails |
| AuthOptions.FirstMatch | src/lib/auth-options.ts:46-48 | returns the index of the first account whose email and password both match, or none |
| AuthOptions.Authorize | src/lib/auth-options.ts:40-60 | a missing email or password gives exactly "Credenciales inválidas"; a user is returned exactly when some account matches both fields; the user has the account's id, email, name and role but no password; no match gives the "Usuario no encontrado" error |
| AuthOptions.AtMostOneAccountMatches | src/lib/auth-options.ts:5-27 | no two demo accounts share an email, so at most one matches |
| AuthOptions.DemoAccountSignsIn | src/lib/auth-options.ts:20-59 | demo@demo.com / demo signs in as demo-client-2 with role CLIENT |
| AuthOptions.WrongPasswordIsNotFound | src/lib/auth-options.ts:46-52 | a known email with the wrong password is not found |
| AuthOptions.JwtCallback | src/lib/auth-options.ts:64-70 | copies role and id into the token only when a user is present; otherwise the token is unchanged |
| AuthOptions.SessionCallback | src/lib/auth-options.ts:71-77 | when the session has a user, sets that user's role and id from the token |
| AuthOptions.SignInScenario | src/lib/auth-options.ts:40-77 | after sign-in and both callbacks, the session carries the account's role and id |
| FnolForm.FormIssues | components/forms/fnol-form.tsx:32-44 | no field is reported twice, so there are at most as many issues as schema fields |
| FnolForm.FieldNamesDistinct | components/forms/fnol-form.tsx:32-44 | the schema declares each of its eleven fields under its own name |
| FnolForm.FormAcceptedExactlyWhenValid | components/forms/fnol-form.tsx:32-44 | the schema accepts exactly when the type is AUTO, HOME or BUSINESS, the email is valid and each field has its minimum length (2/2/5/3/2/1/3/10/2) |
| FnolForm.FieldReportedExactlyWhenInvalid | components/forms/fnol-form.tsx:33-42 | the type, email and description fields are reported exactly when their rules fail |
| FnolForm.FailingFields | components/forms/fnol-form.tsx:32-44 | lists a field exactly when some rule for it fails |
| FnolForm.StepCounter.NextStep | components/forms/fnol-form.tsx:70-73 | advances one step but never past 3 |
| FnolForm.StepCounter.PrevStep | components/forms/fnol-form.tsx:75-77 | goes back one step but never below 1 |
| FnolForm.StepCounter.SubmitOnlyOnLastStep | components/forms/fnol-form.tsx:261-269 | the submit button is offered exactly at step 3 |
| FnolForm.WalkToSubmit | components/forms/fnol-form.tsx:70-73 | from step 1, the step counter ends at step 3, where submission is offered; the third `nextStep` call cannot come from the page, which shows the submit button instead of "Next Step" at step 3 (line 261), so it only exercises the `Math.min` guard |
| FnolForm.DigitRun | components/forms/fnol-form.tsx:96 | `\d+` is greedy: it consumes every digit that follows and stops at the first other character |
| FnolForm.FirstMatchFrom | components/forms/fnol-form.tsx:96 | returns the leftmost "FNOL-" followed by digits, taking all the digits; returns nothing when there is none |
| FnolForm.ClaimNumberOf | components/forms/fnol-form.tsx:96 | a message with a match gives the text of its leftmost match, with all the digits; no message, or one without a match, gives "FNOL-NEW" |
| FnolForm.DemoMessageGivesClaimNumber | components/forms/fnol-form.tsx:96 | with the demo action (whose message is built in actions/claims.ts), the saved claim number equals the generated number |
| FnolForm.ServerAnswerGivesPlaceholder | components/forms/fnol-form.tsx:96 | the database-backed action answers without a message, so the record gets "FNOL-NEW" |
| FnolForm.NewDemoClaim | components/forms/fnol-form.tsx:94-101 | the saved record has status NEW and the submitted type and incident date; its id is the claimId, or "demo-" followed by the timestamp when there is none; its claim number is the one found in the answer's message, or "FNOL-NEW" |
| FnolForm.DemoClaimStorage.SaveSubmission | components/forms/fnol-form.tsx:79-119 | an error answer or a throw saves nothing; otherwise exactly one record is appended after the stored ones; an unreadable item stays unchanged |
| FnolForm.SubmitToDemo | components/forms/fnol-form.tsx:82-106 | submitting to the demo action leaves one stored record, carrying the generated number and the "demo-" id |
| FnolForm.ActionInput | components/forms/fnol-form.tsx:82-85 | every field is passed on unchanged, the type as the matching enum value, except that the incident date becomes a time |
| ClaimsList.SortNewestFirst | components/claims-list-client.tsx:42-44 | the array becomes newest first by createdAt and holds the same rows |
| ClaimsList.InsertNewest | components/claims-list-client.tsx:42-44 | one insertion step extends the newest-first prefix by one row and keeps the same rows |
| ClaimsList.SwapWithPrevious | components/claims-list-client.tsx:42-44 | exchanges two neighbouring rows and changes nothing else |
| ClaimsList.ClaimsListClient.LoadDemoClaims | components/claims-list-client.tsx:32-51 | if an array is stored, the list becomes a permutation of stored ++ initial, newest first, with length equal to their sum; otherwise the list is unchanged |
| ClaimsList.ShowWithoutDemoClaims | components/claims-list-client.tsx:32-40 | with no usable stored item, the list shows the server's claims |
| ClaimsList.GetStatusColor | components/claims-list-client.tsx:53-64 | NEW maps to blue, IN_REVIEW to orange, CLOSED to green, and exactly the other statuses map to gray |
| ClaimsList.StatusLabel | components/claims-list-client.tsx:97 | only the first "_" becomes a space; every other character is kept |
| ClaimsList.LabelWithoutUnderscore | components/claims-list-client.tsx:97 | a status without "_" displays unchanged |
| ClaimsList.InReviewLabel | components/claims-list-client.tsx:97 | IN_REVIEW displays as "IN REVIEW" |
| ClaimsList.OnlyFirstUnderscoreReplaced | components/claims-list-client.tsx:97 | "A_B_C" displays as "A B_C" |
| Sidebar.BuildRoutes | src/components/dashboard/sidebar.tsx:22-52 | the routes are Overview, My Claims and New Claim, plus Admin Panel exactly for an admin; each route's flag follows its pathname rule |
| Sidebar.AtMostOneDashboardEntryActive | src/components/dashboard/sidebar.tsx:29-41 | at most one of Overview, My Claims and New Claim is active for any pathname |
| Sidebar.ClaimsSectionHighlightsOne | src/components/dashboard/sidebar.tsx:35-41 | under /dashboard/claims, exactly one of My Claims and New Claim is active, and never Overview |
| Sidebar.DetailAndAdminPages | src/components/dashboard/sidebar.tsx:24-52 | a claim detail page highlights only My Claims; for an admin, an admin page highlights only Admin Panel |
| JsText.ToUpperIdempotent | src/lib/certificate-utils.ts:38 | upper-casing twice is the same as upper-casing once |
| JsText.ToUpperFixesExactlyUpper | src/lib/certificate-utils.ts:38-40 | upper-casing leaves a string unchanged exactly when it has no lower-case letters |
| JsText.Substring | src/lib/certificate-utils.ts:222 | within range `substring` is the plain slice; an index below 0 counts as 0, one past the end as the length, and reversed indices are swapped |
| JsText.SubstringSymmetric | src/lib/certificate-utils.ts:222 | swapping the two indices gives the same text |
| JsText.PieceOccurs | src/lib/certificate-utils.ts:53-237 | every interpolated value occurs in the text of the template literal |
| JsText.FloorScaled | src/actions/claims.ts:31 | `Math.floor(Math.random() * k)` is below k |
| JsText.DecimalLength | src/actions/claims.ts:31 | a number in [10^(k-1), 10^k) is written with exactly k digits |
| JsText.DecimalRoundTrip | src/actions/claims.ts:31 | reading back the decimal text of a number gives the number |

## Left out

- **Rendering:** React rendering, toasts, router navigation, `revalidatePath`
  and the "mock email" console output are not modelled. They do not change
  the modelled state.
- **The session source:** next-auth's retrieval of the session is not
  modelled. A session is an `Option` of the user it carries.
- **Store faults:** Prisma is modelled by maps and boolean fault parameters.
  The unique constraint on claim numbers is not modelled: two claims may get
  the same number.
- **Log entries:** their own ids and timestamps are not modelled.
- **Browser-side decoding:** JSON parsing, `localStorage` and the decoding of
  stored items are not modelled. The stored item is given already decoded. An
  array whose elements are not claim rows is not modelled.
- **Dates:** ISO formatting and parsing are not modelled. Times are integers
  and the date text is a parameter.
- **The zod error message:** `register` returns the issue list, not zod's JSON
  rendering of it. Any other thrown `Error` carries the fault message given as
  a parameter.
- **Floating point:** IEEE rounding in `Math.random()` arithmetic and in
  `toString(36)` is not modelled, so a draw is an exact fraction.
- **Case mapping:** `toUpperCase` is modelled for ASCII letters only.
- **String length:** a Dafny string is a sequence of Unicode code points, so
  `|s|` counts code points. JavaScript and zod's `.min(n)` count UTF-16 code
  units, so a character outside the Basic Multilingual Plane (an emoji)
  counts 2 in the source and 1 here. `AuthActions.RegisterIssues` and
  `FnolForm.SchemaAccepts` can therefore reject a name that the source
  accepts, such as one emoji against `min(2)`.
- **The insurer logo:** `logoUrl` in the branding type is never set, so it is
  not modelled.
- **Concurrency:** concurrent admin updates are last-write-wins inside the
  database, and this is not modelled.
- ClaimsList.SortNewestFirst: stability (the relative order of claims with
  equal `createdAt`) is not stated; the contract gives order and
  permutation only.
- ClaimsList.SortNewestFirst: modelled with insertion sort; the engine's
  sorting algorithm is not the one modelled, only its result.
- FnolForm.FirstMatchFrom: only the single pattern `FNOL-\d+` is
  modelled, not regular expressions in general.
