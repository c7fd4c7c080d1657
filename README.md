# ProveForMe frontend pages, modelled in Dafny

ProveForMe connects remote investors with local "Boots on the Ground" users
(BGs, also called Provers) who visit properties for them. This project
models the logic of ten client pages of the Next.js frontend. The pages
gate access by the role in the browser's localStorage. They call the
backend with `fetch` and turn its replies into state, messages and
redirects.

There is one Dafny module per source file:

| module | file | what it models |
|---|---|---|
| `Common` | (shared) | JSON values, JavaScript truthiness, logical or, property reads, `trim`, decimal text, `localStorage` |
| `Login` | `login.dfy` | the login form's walk over ten candidate endpoints |
| `Home` | `home.dfy` | the landing page's session read, dashboard link, banner and health line |
| `Account` | `account.dfy` | profile load, role summaries, profile save, password change |
| `BgDashboard` | `bg_dashboard.dfy` | the BG dashboard's mount gate, zip-code editor and zip-code save |
| `BgOnboard` | `bg_onboard.dfy` | the return page of the payment onboarding flow, with its re-check polling |
| `InvestorDashboard` | `investor_dashboard.dfy` | the investor dashboard's two effects and render gating |
| `CreateProject` | `create_project.dfy` | the create-project form's validation and submission |
| `Support` | `support.dfy` | the support form's mailto link |
| `UploadTest` | `upload_test.dfy` | the photo upload and listing page, file names and sizes |
| `AuthedHeader` | `authed_header.dfy` | the shared header's role, links and logout |

How the pages are modelled:

- Each page's React state becomes a `class` whose fields are the state
  cells. Each event handler or effect becomes a `method`. Its contract
  states the new state in terms of a pure function of the inputs.
- The outcome of every `fetch` is a datatype parameter. It is either "the
  call threw" or a response: a status (or `res.ok`) plus what `res.json()`
  gave, with `None` when parsing threw.
- `JSON.parse`, `JSON.stringify`, `encodeURIComponent` and `parseFloat` are
  function parameters. Where a lemma needs `JSON.parse` to read back what
  `JSON.stringify` wrote, it says so in a `requires`.
- `localStorage` is a class over a `map<string, string>`.
- A property read on a JSON value (`Prop`) gives null when the value is not
  an object or lacks the key. The pages only test such reads for
  truthiness or compare them with `===` against a string, so undefined and
  null are not told apart.

Some of the facts proved:

- Login:
  - The endpoints are walked in order, and each is contacted at most once.
  - A 404, a network error, or an ok reply without a token or user moves
    on to the next endpoint.
  - A rejection stops the walk at that endpoint.
  - An exhausted walk reports the last message it recorded.
  - A success writes exactly the three session keys.
- BG dashboard:
  - Adding a zip code keeps the list duplicate-free.
  - Adding a fresh zip code and then removing it restores the list.
  - A lower-case "bg" role is admitted.
- Account:
  - The investor summary is additive over the project list.
  - Two profile saves equal one save with the later names.
  - The stored user reads back with the edited names.
- Support: the mail body can be parsed back into its three fields.
- BG onboarding: polling ends with success at the first onboarded reply.
- Header: the logout button shows exactly when the links include the
  account page.

## Model

| member | source | states |
|---|---|---|
| Common.OrElse | app/login/page.tsx:144-147 | logical or on a nullable string and a fallback: the value when it is present and non-empty, the fallback otherwise |
| Common.Prop | app/login/page.tsx:99-108 | a property read gives the field's value when the value is an object having that key, null otherwise |
| Common.Or | app/login/page.tsx:99-108 | logical or on two values: the first operand exactly when it is truthy, else the second |
| Common.Truthy | app/login/page.tsx:84 | a value is falsy exactly when it is null, false, 0 or the empty string |
| Common.JsString | app/login/page.tsx:86-87 | `String(v)`: a string is itself, a number its decimal text, null "null", a boolean "true" or "false", an object "[object Object]" |
| Common.Trim | app/bg/page.tsx:194 | the result is a contiguous slice of the input, what it leaves off at either end is all JavaScript white space, and it neither starts nor ends with white space |
| Common.TrimEmptyIffBlank | app/bg/page.tsx:194-195 | the trimmed text is empty exactly when every character of the input is white space |
| Common.TrimIdempotent | app/bg/page.tsx:194 | trimming an already trimmed text changes nothing |
| Common.AsciiUpper | app/bg/page.tsx:109 | same length as the input, each character upper-cased (ASCII letters only) |
| Common.NatToString | app/login/page.tsx:87 | the decimal text of a status: non-empty, digits only, no leading zero, and its decimal value is the number |
| Common.IntToString | app/upload-test/page.tsx:153 | the decimal text of a byte count: a non-negative count is all digits with the count as value; a negative one is a minus sign followed by the digits of its magnitude |
| Common.ObjectFields | app/page.tsx:56 | object spread copies an object's own fields, and none of null, a boolean or a number |
| Common.ErrorText | app/account/page.tsx:180 | the server's `error`, turned into text, when it is truthy; the fallback otherwise |
| Common.LocalStorage.GetItem | app/bg/page.tsx:95-96 | the stored string when the key is present, null when it is not |
| Common.LocalStorage.SetItem | app/login/page.tsx:118-120 | the key now maps to the value; every other key is unchanged |
| Common.LocalStorage.RemoveItem | components/AuthedHeader.tsx:50-52 | the key is gone; every other key is unchanged |
| Common.LocalStorage.constructor | app/login/page.tsx:118-120 | the storage starts with the given entries |
| Login.EndpointsDistinct | app/login/page.tsx:31-42 | the ten candidate login endpoints are pairwise distinct |
| Login.Rejection | app/login/page.tsx:85-87 | the rejection text is the body's `error` when truthy, else the status message naming the path and the status |
| Login.StepAt | app/login/page.tsx:62-140 | a network error or a 404 moves on; an ok reply with a truthy body, `ok` not false, and a truthy token and user is accepted; the attempt is rejected iff the status is not ok, the body is missing or falsy, or `ok === false`; a rejection carries the server's message |
| Login.TokenOf | app/login/page.tsx:99-102 | the token is the reply's `token` when truthy, else its `accessToken` when truthy, else its `jwt` |
| Login.UserOf | app/login/page.tsx:103-104 | the user is truthy iff the reply's own or the nested user is; the own user wins when truthy, else the nested one |
| Login.RoleOf | app/login/page.tsx:105-108 | the role is always truthy: the reply's own `role`, else the user's `role`, else "INVESTOR" |
| Login.Text | app/login/page.tsx:78-147 | a rejection shows the server's error rendered as text; the 404, missing-fields and network messages are never empty, so the final fallback never replaces them |
| Login.RunFrom | app/login/page.tsx:58-147 | a walk never contacts more endpoints than remain, and one that contacts none reports the last recorded message or the generic fallback |
| Login.RunFromWalk | app/login/page.tsx:58-141 | the endpoints contacted are the next ones of the list in order; all but the last moved on; the walk stops early only at a rejection or an acceptance; the last one contacted decides the outcome |
| Login.EachEndpointAtMostOnce | app/login/page.tsx:58-141 | a submission contacts between one and ten endpoints, none of them twice |
| Login.ExhaustedReportsLastMessage | app/login/page.tsx:143-147 | when every remaining endpoint moves on, all are contacted and the error is the last endpoint's message, never the generic fallback |
| Login.RejectionStopsWalk | app/login/page.tsx:84-91 | a rejection at endpoint k, with every earlier endpoint moving on, ends the walk there with its message; later endpoints are not contacted |
| Login.RedirectFor | app/login/page.tsx:128-132 | a successful login goes to `/bg` exactly for the role "BG", and to `/` otherwise |
| Login.SessionWrites | app/login/page.tsx:117-120 | a successful login writes the token, the role and the serialised user under the three session keys, and leaves every other key alone |
| Login.LoginForm.constructor | app/login/page.tsx:44-48 | the form walks `LOGIN_ENDPOINTS`, is not submitting and shows no error |
| Login.LoginForm.HandleSubmit | app/login/page.tsx:50-151 | the loop contacts exactly the walk's endpoints; a failed walk sets its message as the error and leaves storage and location alone; a login writes the session and redirects by role; submitting ends false |
| Home.ReadAuth | app/page.tsx:44-64 | a user is read iff the token, role and stored user are all non-empty and the user parses; it has every stored field, with `role` replaced by the stored role |
| Home.StoredRole | app/page.tsx:67-68 | the role read of `authUser?.role`: null without a user, the `role` field of a user that has one |
| Home.DashboardHref | app/page.tsx:67-68 | the dashboard link is `/bg` exactly for the role "BG", and `/investor` otherwise |
| Home.DashboardLinkText | app/page.tsx:140-142 | the link reads "Go to investor dashboard" exactly for the role "INVESTOR", else "Go to BG dashboard" |
| Home.RoleLabel | app/page.tsx:157-159 | the banner says "Investor" exactly for the role "INVESTOR", else "BG / Prover" |
| Home.LinkAndLabelsAgree | app/page.tsx:67-159 | for the two roles, the link target, the link text and the banner label agree |
| Home.OtherRoleLinkedToInvestor | app/page.tsx:67-159 | any other role (e.g. "bg") is labelled as a BG but linked to the investor dashboard |
| Home.BannerName | app/page.tsx:153-154 | the banner name is the trimmed first name (empty when missing or falsy), a space, and the trimmed last name (likewise) |
| Home.HealthFrom | app/page.tsx:28-42 | a health body is recorded iff the reply has an ok status and parses as JSON |
| Home.StatusText | app/page.tsx:246-253 | the footer shows the error first, then "ok" with the server's message or the default when the health says `ok`, and "checking..." otherwise |
| Home.HomePage.CheckHealth | app/page.tsx:28-42 | a healthy reply replaces the health and clears the error; any failure sets the contact error and keeps the old health |
| Home.HomePage.ReadAuthFromStorage | app/page.tsx:44-64 | the user is what `ReadAuth` reads from the three stored session keys |
| Home.StatusAfterCheck | app/page.tsx:246-253 | after the health check the footer reports "ok" iff the backend answered ok with a truthy `ok`, and the contact failure when the check failed |
| Home.HomePage.constructor | app/page.tsx:23-25 | no health yet, no error, no user |
| Account.CountWhere | app/account/page.tsx:140-141 | the filtered count is at most the list's length; it is zero iff nothing matches, and the full length iff everything matches |
| Account.IsOpen | app/account/page.tsx:140 | a project counts as open exactly when it is an object whose `status` is "OPEN" |
| Account.IsFunded | app/account/page.tsx:141 | a project counts as funded exactly when its `fundedCount` or `releasedCount` is a positive number or `true` |
| Account.Paid | app/account/page.tsx:142 | a numeric `totalPaid` adds its value, `true` adds 1, and a missing or falsy amount adds nothing |
| Account.TotalSpent | app/account/page.tsx:142 | the total is non-negative when every amount is, and zero when no project has a numeric or `true` amount |
| Account.Summarize | app/account/page.tsx:138-149 | the total is the list's length; the open and funded counts are within it, and zero exactly when no project is open or funded |
| Account.CountWhereAppend | app/account/page.tsx:140-141 | counting over two lists joined is the sum of the counts |
| Account.TotalSpentAppend | app/account/page.tsx:142 | the total over two lists joined is the sum of the totals |
| Account.SummarizeAppend | app/account/page.tsx:138-149 | the summary of two lists joined is the field-by-field sum of their summaries |
| Account.SummarizeOne | app/account/page.tsx:140-149 | one project counts once, is open or funded by its own fields, and adds its own `totalPaid` |
| Account.MissingPaidAddsNothing | app/account/page.tsx:142 | appending a project whose `totalPaid` is neither a number nor `true` leaves the total spent unchanged |
| Account.ProjectList | app/account/page.tsx:138 | the project list: empty for a falsy `projects`, the items of an array, and no list for any other truthy value |
| Account.SummaryFrom | app/account/page.tsx:130-154 | a summary is recorded iff the reply is ok, parses to a non-null body and has a list of non-null projects; it is that list's summary |
| Account.PaymentsFrom | app/account/page.tsx:115-128 | the payments are recorded iff the reply is ok and parses; they are the body as it is |
| Account.ProfileLoadResult | app/account/page.tsx:65-113 | no token, or a 401, redirects to login and nothing else; another failed status sets the load-failure message; a thrown call, or an ok reply whose body does not parse or is null, sets the network message; an ok reply whose `ok` or user is falsy sets nothing but ends loading; a user is recorded iff the reply says `ok` with a user; its role starts the BG payments or the investor summary, at most one; loading ends whenever a token exists |
| Account.EditName | app/account/page.tsx:94-95 | the edited name is the user's string name, or "" when the name is missing or falsy |
| Account.View | app/account/page.tsx:257-277 | loading shows the loading view; an error or a missing user shows the error or "Failed to load profile"; otherwise the profile of the recorded user |
| Account.ViewAfterLoad | app/account/page.tsx:65-113 | after the load effect without a token the page stays loading; with one the profile shows iff a user was recorded; a 401 shows "Failed to load profile" |
| Account.PutError | app/account/page.tsx:177-182 | a PUT succeeds iff it returns ok with a JSON body; a network failure or a non-JSON body gives the network message; a failed reply gives its `error`, else the fallback |
| Account.WithNames | app/account/page.tsx:185 | the object gains the two edited names and keeps every other field |
| Account.WithNamesLastWins | app/account/page.tsx:185 | saving names twice equals saving the later names once |
| Account.MergedUser | app/account/page.tsx:185 | a present user becomes an object with the edited names and every other field it had; no user stays no user |
| Account.StoredUserWrite | app/account/page.tsx:188-194 | an empty or missing stored user is left alone; one that does not parse, or parses to a non-object, throws; an object is written back with the names set |
| Account.StoredUserReadsBack | app/account/page.tsx:188-194 | when parse reads back what stringify writes, the stored user read after a save has both edited names and every other field it had |
| Account.CheckNewPassword | app/account/page.tsx:207-218 | no token stops silently; a mismatch is reported first whatever the length; then a password shorter than 8 characters; only a matching password of 8 or more is sent |
| Account.AccountPage.LoadProfile | app/account/page.tsx:65-113 | each state cell takes what `ProfileLoadResult` sets and keeps its old value otherwise; the loader the role picks is appended to those started |
| Account.AccountPage.ReceiveInvestorSummary | app/account/page.tsx:136-150 | the summary is replaced exactly when `SummaryFrom` records one |
| Account.AccountPage.ReceiveBgPayments | app/account/page.tsx:121-124 | the payments are replaced exactly when `PaymentsFrom` records them |
| Account.AccountPage.SaveProfile | app/account/page.tsx:156-204 | without a token nothing changes; a failed PUT reports its error and changes neither user; a success merges the names into the in-memory user and then writes the stored user, and a throwing write reports the network message |
| Account.AccountPage.ChangePassword | app/account/page.tsx:206-255 | only a passing check sends; a mismatch or a short password sets its message and keeps all three inputs; a success clears the three inputs and closes the form; a failure keeps them |
| Account.AccountPage.constructor | app/account/page.tsx:38-63 | the page starts loading, with no user, error, summaries or redirect, an empty edit form and a closed password form with empty inputs |
| Account.AccountPage.ProfileSuccessTimer | app/account/page.tsx:198 | the delayed reset clears the profile success flag and nothing else |
| Account.AccountPage.PasswordSuccessTimer | app/account/page.tsx:249 | the delayed reset clears the password success flag and nothing else |
| BgDashboard.Mount | app/bg/page.tsx:92-127 | the four loads start, with no error, exactly for a non-empty token and a stored user that parses, is not null, and whose role upper-cases to "BG"; a stored user that does not parse, or parses to null, gives the read failure and no loads; any other user is recorded with the token, and one whose upper-cased role is not "BG" gets the refusal naming that role |
| BgDashboard.RoleUpper | app/bg/page.tsx:109 | the upper-cased role: empty for a falsy role, otherwise the role rendered as text and upper-cased |
| BgDashboard.WrongRoleMessage | app/bg/page.tsx:111-113 | the refusal is the BG-only sentence, then the upper-cased role, then a full stop |
| BgDashboard.LowerCaseBgAdmitted | app/bg/page.tsx:109-110 | a stored role "bg" is admitted, since it is upper-cased first |
| BgDashboard.AddZip | app/bg/page.tsx:193-199 | the list keeps its entries in place and gains the trimmed input at the end exactly when it is non-empty and not yet listed; no duplicates are introduced |
| BgDashboard.InputAfterAdd | app/bg/page.tsx:193-199 | the input is cleared exactly when the add succeeds, and kept otherwise |
| BgDashboard.BlankInputIgnored | app/bg/page.tsx:194-195 | white-space-only input changes neither the list nor the input |
| BgDashboard.RemoveZipMembers | app/bg/page.tsx:201-203 | removal keeps exactly the entries other than the zip, never lengthens the list, and changes nothing when the zip is not listed |
| BgDashboard.RemoveZip | app/bg/page.tsx:202 | the filter never lengthens the list |
| BgDashboard.RemoveZipNoDuplicates | app/bg/page.tsx:201-203 | removal keeps a duplicate-free list duplicate-free |
| BgDashboard.RemoveZipAppend | app/bg/page.tsx:202 | removal works entry by entry: on two lists joined it is the two removals joined, so kept entries keep their order |
| BgDashboard.AddThenRemove | app/bg/page.tsx:193-203 | adding a fresh zip code and removing it again restores the list |
| BgDashboard.ZipsAfterSave | app/bg/page.tsx:178-183 | after an ok reply that parses, the list is the server's `serviceZipCodes` (empty when absent); otherwise the local list stays |
| BgDashboard.BgDashboardPage.constructor | app/bg/page.tsx:92-127 | the page records the user, the token, the error and the loads the mount effect gives; loading stays on only when the loads start |
| BgDashboard.BgDashboardPage.AddZipCode | app/bg/page.tsx:193-199 | the list and the input change together, as `AddZip` and `InputAfterAdd` say, or neither changes |
| BgDashboard.BgDashboardPage.RemoveZipCode | app/bg/page.tsx:201-203 | the list becomes `RemoveZip` of it; nothing else changes |
| BgDashboard.BgDashboardPage.SaveServiceZipCodes | app/bg/page.tsx:162-191 | without a token nothing is sent; otherwise the current list is sent, the reply decides the new list and the success flag, a success restarts the available-projects load, and saving ends false |
| BgDashboard.BgDashboardPage.ZipSaveSuccessTimer | app/bg/page.tsx:184 | the delayed reset clears the save success flag and nothing else |
| BgOnboard.QueryFlag | app/bg/onboard/page.tsx:27-28 | a query flag is set exactly when its value is the string "true" |
| BgOnboard.CheckStatus | app/bg/onboard/page.tsx:41-84 | a failed call or an unreadable body is an error redirecting to `/bg`; an onboarded BG succeeds and is redirected whatever the flags; otherwise the status is incomplete, with the refresh flag's message first, then the success flag's; a re-check is scheduled exactly for a success return with details submitted |
| BgOnboard.OnMount | app/bg/onboard/page.tsx:30-87 | without a token the page reports not logged in and redirects to `/login` without fetching; with one the outcome is `CheckStatus` of the reply and the two flags |
| BgOnboard.Poll | app/bg/onboard/page.tsx:64-68 | following the re-check timer: each run is `checkStatus` on its reply; every run but the last scheduled a re-check; the polling stops early only at a run that did not |
| BgOnboard.PollEndsOnOnboarded | app/bg/onboard/page.tsx:54-68 | when every earlier reply asked for a re-check, polling ends with success at the first onboarded reply |
| BgOnboard.OnboardPage.constructor | app/bg/onboard/page.tsx:23-28 | the two flags come from the query string; the page starts loading with no message, no status value and no timer |
| BgOnboard.OnboardPage.Mount | app/bg/onboard/page.tsx:30-87 | the status, message and timer are what `OnMount` gives; a fetch is made exactly when there is a token |
| BgOnboard.OnboardPage.FireRecheck | app/bg/onboard/page.tsx:68 | the pending re-check runs `checkStatus` again, with one more fetch |
| BgOnboard.OnboardPage.Apply | app/bg/onboard/page.tsx:41-84 | one run of `checkStatus` sets its status, message and timer, and records the status value when it reads one |
| InvestorDashboard.ReadUser | app/investor/page.tsx:33-48 | a missing token or stored user gives "Not logged in"; one that does not parse gives the read failure; otherwise the parsed user is recorded |
| InvestorDashboard.ReadProjects | app/investor/page.tsx:51-83 | no token gives the token message; a thrown call or an unreadable body gives the network message; a falsy `ok`, whatever the status, records the server's `error` value as it is when truthy, else the fallback; every recorded error is truthy; a truthy `ok` records `projects` |
| InvestorDashboard.View | app/investor/page.tsx:85-103 | a truthy error value shows first, then loading or no user; a user whose role is not "INVESTOR" is denied; only an investor sees the dashboard |
| InvestorDashboard.InvestorDashboardPage.LoadUser | app/investor/page.tsx:33-48 | the user effect records the error or the user `ReadUser` gives, and nothing else |
| InvestorDashboard.InvestorDashboardPage.LoadProjects | app/investor/page.tsx:51-83 | the projects effect records the error value or the projects `ReadProjects` gives, and loading ends |
| InvestorDashboard.ViewAfterMount | app/investor/page.tsx:33-103 | after both effects, no token shows the token message; any projects error is shown as recorded; a missing stored user shows "Not logged in" when the projects load; the dashboard shows iff the projects loaded and the stored user is an investor |
| InvestorDashboard.InvestorDashboardPage.constructor | app/investor/page.tsx:27-30 | no user, an empty project list, loading, and no error |
| CreateProject.Validate | app/investor/projects/create/page.tsx:25-40 | the token is checked first, then the four required inputs, then a positive pay; a form that passes is sent with the parsed pay |
| CreateProject.OptionalInputs | app/investor/projects/create/page.tsx:31-34 | the description and the full address never change whether the form is sent, or the error it is refused with |
| CreateProject.SubmitOutcome | app/investor/projects/create/page.tsx:60-85 | creation succeeds iff the status is ok and the body parses, is not null and says `ok`; a non-JSON body, a thrown call and a failure each give their own message |
| CreateProject.ServerErrorShown | app/investor/projects/create/page.tsx:70-77 | a refusal whose body has a truthy `error` shows that error |
| CreateProject.StatusMessage | app/investor/projects/create/page.tsx:73 | the fallback names the status: the failure prefix, the status's decimal text, then ")." |
| CreateProject.CreateProjectForm.HandleSubmit | app/investor/projects/create/page.tsx:21-86 | an invalid form sends nothing and shows its message; a valid one sends the request; a failure shows its message and ends submitting; a success navigates to `/investor` |
| CreateProject.CreateProjectForm.constructor | app/investor/projects/create/page.tsx:12-19 | all six inputs empty, not submitting, no error, no navigation |
| Support.MailSubject | app/support/page.tsx:29-30 | the subject is the support prefix followed by the subject typed |
| Support.MailBody | app/support/page.tsx:32 | the body is the name line, the email line, a blank line, the "Message:" line and the message |
| Support.MailtoLink | app/support/page.tsx:29-33 | the link is a mailto link to the support address, with the subject parameter first |
| Support.MailtoReadsBack | app/support/page.tsx:29-33 | when the encoded subject holds no `&`, the link reads back as exactly the encoded subject in `subject=` and the encoded body in `&body=` |
| Support.BodyReadsBack | app/support/page.tsx:31-32 | when the name and email contain no line break, the three fields can be read back out of the body |
| Support.SupportForm.HandleSubmit | app/support/page.tsx:16-42 | an empty input gives the fill-in message; otherwise the location becomes the mailto link and the form is submitted, unless navigation throws, which gives the send-failure message; submitting ends false |
| Support.SupportForm.constructor | app/support/page.tsx:8-14 | all four inputs empty, not submitting, not submitted, no error, no navigation |
| UploadTest.FileName | app/upload-test/page.tsx:160-163 | the file name is a suffix of the path without separators, starting at the beginning or right after a separator |
| UploadTest.SplitOnSeparators | app/upload-test/page.tsx:161 | splitting on `/` and `\` gives one piece more than there are separators, no piece contains a separator, and the pieces joined with the separators in order give back the path |
| UploadTest.FileNameIsLastPiece | app/upload-test/page.tsx:160-163 | the file name is the last piece of the split |
| UploadTest.FileNameCases | app/upload-test/page.tsx:160-163 | a path without separators is its own name; a path ending in a separator has the empty name |
| UploadTest.HumanFileSize | app/upload-test/page.tsx:151-158 | no size gives "unknown size"; under 1024 the bytes are shown; below 1024 KB the kilobytes (at least 1); otherwise the megabytes |
| UploadTest.LoadedMessage | app/upload-test/page.tsx:138-142 | no photos gives the empty message; otherwise the count of photos is shown |
| UploadTest.UploadValidation | app/upload-test/page.tsx:55-63 | the visit ID is checked before the file, and an upload is sent iff both are given |
| UploadTest.UploadOutcome | app/upload-test/page.tsx:65-106 | a thrown call, a non-JSON body and a refusal each give their message and keep the list; a success shows the success message, and the new photo goes in front exactly when it belongs to the visit shown |
| UploadTest.UploadKeepsVisitList | app/upload-test/page.tsx:95-99 | a list of one visit's photos stays a list of that visit's photos, and grows by at most one |
| UploadTest.LoadOutcome | app/upload-test/page.tsx:118-148 | the status is checked before the body; a thrown call, a bad status, a non-JSON body and a backend error each give their message; a success replaces the list, records the visit and counts the photos |
| UploadTest.UploadPage.constructor | app/upload-test/page.tsx:41-46 | the visit ID comes from the query string when it is non-empty, else is empty |
| UploadTest.UploadPage.HandleUpload | app/upload-test/page.tsx:51-107 | an upload is sent iff validation passes; the error, message and list are what `UploadOutcome` gives; uploading ends false |
| UploadTest.UploadPage.HandleLoadPhotos | app/upload-test/page.tsx:109-149 | a load is sent iff there is a visit ID; a success replaces the list and the visit loaded, and other outcomes keep them; loading ends false |
| AuthedHeader.ResolveRole | components/AuthedHeader.tsx:26-45 | a role passed in wins; otherwise the stored role counts only when it is exactly "INVESTOR" or "BG"; a storage failure means logged out |
| AuthedHeader.StoredRoleIsCaseSensitive | components/AuthedHeader.tsx:36-40 | a stored "bg" is not a role: the header shows the logged-out links |
| AuthedHeader.RoleName | components/AuthedHeader.tsx:36 | a stored role string names a role exactly when it is "INVESTOR" or "BG" |
| AuthedHeader.NavItems | components/AuthedHeader.tsx:60-73 | Home always comes first; an investor gets the investor dashboard and My Account, a BG the BG dashboard and My Account, others Log in and Register |
| AuthedHeader.ShowLogout | components/AuthedHeader.tsx:75 | the logout button shows exactly when there is a role |
| AuthedHeader.LogoutMatchesAccountLink | components/AuthedHeader.tsx:60-75 | the logout button shows exactly when the links include My Account |
| AuthedHeader.HandleLogout | components/AuthedHeader.tsx:47-58 | the three session keys are removed, every other key stays, and the router goes to `/login` |

## Left out

- The remaining operations of app/bg/page.tsx are not modelled: `fetchUserProfile`, `fetchBgVisits`, `fetchStripeStatus`, `fetchAvailableProjects`, the payment-account setup and `expressInterest`. The model only records, in order, which loads the mount effect and the save start.
- Escrow, fees, project matching and onboarding decisions are server-side. The pages only display the server's answers.
- The static pages, the register page and the project detail page are not part of this model.
- Rendering (JSX, styling, the menu toggle) is left out. Only the values the pages compute for display are modelled: link targets, labels, status lines, view selection.
- `console` logging has no effect on state and is left out.
- Each `setTimeout` callback is a method that does what the callback does: `Account.AccountPage.ProfileSuccessTimer`, `Account.AccountPage.PasswordSuccessTimer`, `BgDashboard.BgDashboardPage.ZipSaveSuccessTimer` and `BgOnboard.OnboardPage.FireRecheck`; the onboarding redirects are recorded as the follow-up the page has scheduled. When a callback is scheduled and when it fires (the delays) is not modelled. `BgOnboard.Poll` takes the replies of successive re-checks as a sequence.
- The `typeof window` server-side guards are left out. The model is the browser side.
- Storage exceptions are left out, except for the header's role read (`StorageFailure`) and the JSON parse failures that pages catch.
- React's batching and re-render order are left out. Each handler is one atomic step, and its awaited reply is a parameter.
- The backend's HTTP requests (URL, headers, request body) are left out. Only the data sent (the zip list, the project request) and the reply's effect are modelled.
- `Common.AsciiUpper`: `toUpperCase` is modelled on ASCII letters only. Full Unicode case mapping is not modelled.
- JSON numbers are integers in the model. Fractional and non-finite numbers are not modelled.
- `Common.JsString`: a value is rendered through `String(v)`. The TypeError a page would hit calling `.trim()` on a non-string name is not modelled.
- `Account.Paid`: a string, array or object `totalPaid` is treated as adding nothing. JavaScript would concatenate it, turning the total into a string. `true` adds 1, as in JavaScript.
- `Account.IsFunded`: only numbers and `true` count as positive. JavaScript's coercion in `>` of numeric strings and of arrays (such as `[3] > 0`) is not modelled; they count as not positive.
- `Common.ObjectFields`: spreading a string or an array copies its indices in JavaScript. The model copies no fields from them.
- `Account.CheckNewPassword`: the length is counted in characters, not in UTF-16 code units.
- `UploadTest.HumanFileSize`: the KB and MB amounts are kept as exact reals. The `toFixed` rounding and its text are not modelled.
- `UploadTest.UploadOutcome` and `UploadTest.LoadOutcome` take the reply bodies in their declared TypeScript shapes (`UploadResponse`, `PhotosResponse`). Bodies of other shapes are not modelled.
- `BgDashboard.ZipsAfterSave` takes the save reply in its declared shape: an optional list of strings. A null body is not modelled.
- `CreateProject.Validate`: `parseFloat` is a parameter giving None for NaN. Infinity is not distinguished from other reals.
- `Support.MailtoLink`: `encodeURIComponent` is a parameter. Its percent-encoding is not modelled; `Support.MailtoReadsBack` requires only that it leaves no `&` in the subject.
- `Account.AccountPage.ReceiveBgPayments`: the BG payments body is recorded as it is. Its contents are only rendered, which is not modelled.
- The account page's rendering after the gating (profile fields, summary cards, the edit and password forms) is left out, except the gating itself (`Account.View`).
- `Login.LoginForm.HandleSubmit` is proved over the form's endpoint list. The constructor sets that list to `LOGIN_ENDPOINTS`, so the contract then describes `Login.LoginRun`.
- `Login.Text`: the page stores a truthy `error` from a login reply as it is and renders it as a JSX child. React shows a string or a number as its text, shows nothing for `true`, shows an array's items run together (`["a","b"]` as "ab") and throws on a plain object. The model renders the value with `Common.JsString` (`String(v)`), which agrees only for strings and numbers.
- `Common.ErrorText`: the same approximation applies to the stored `data.error || fallback` shown by `Account.PutError` (the profile and password errors) and by `CreateProject.SubmitOutcome` and `CreateProject.ServerErrorShown`. A non-string truthy `error` is turned into text with `Common.JsString` rather than kept and rendered by React. `Account.EditName` likewise turns a non-string truthy `firstName` or `lastName` into text, where the page keeps the raw value and sends it through `JSON.stringify` when the profile is saved.
- The exception texts the JavaScript engine produces (for example reading a property of null) are left out where a page shows the thrown error's message. Those pages' own `throw` texts are modelled. The upload and load handlers see an engine exception only as a thrown call with some message.
