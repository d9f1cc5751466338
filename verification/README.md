# Zetech feedback portal — a Dafny model of the client core

This project models the client-side logic of the Zetech student feedback portal, a React application. Students submit issues, anonymously or under their name, and track them by ticket ID. Administrators filter, sort and count issues, change their status and answer them. The modelled parts are:

- the in-memory issue store: ticket-ID generation, lookups, status updates and responses;
- the dashboard's filter, sort and statistics logic;
- the submission form's validator, payload, recent-ticket list and reset;
- the ticket search;
- the issue-details handlers;
- the route guard and the status badge classes;
- the authentication context: device id, token-expiry check, login routing and logout;
- the HTTP client's token, header and error-status rules;
- the sitemap document.

Pure code is modelled as functions with lemmas. Code that changes state is modelled as classes whose methods state the new state. The shared browser storage is the `Session.LocalStorage` class; the HTTP client and the authentication context both hold it.

Randomness, the clock, `uuidv4`, the JWT decoder and the backend's replies are parameters:

- `Math.random()` draws are `real`s in [0, 1). The random device-id suffix is a string.
- The clock is an integer number of milliseconds.
- The decoder is a function from token to `Malformed` or `Claims(exp)`.
- Backend replies are small datatypes: a failed request, or data whose fields may be missing.

Modules, one per source file, plus three shared ones:

- `Js`: JavaScript truthiness, `trim`, ASCII case mapping, `includes` and `startsWith`.
- `Lists`: `filter` and `find`.
- `Session`: the user, the decoded token, the expiry rule, the device-id rule and the storage class.
- `IssueStore`, `AdminDashboard`, `SubmitIssue`, `TrackIssue` and `IssueDetails`.
- `ProtectedRoute`, `StatusBadge`, `Auth`, `ApiSocket` and `Sitemap`.

Some partners are reference definitions rather than source code:

- The sitemap has no reader in the source. `Sitemap.ParseSitemap` is written here as its inverse, so that "one `<url>` element per entry, in order, values verbatim" can be stated as a round trip.
- The form validator is proved against `SubmitIssue.FormOk`, a statement of the rules on blankness rather than on `trim`.

## Model

| member | source | states |
|---|---|---|
| Js.ToUpper | src/pages/TrackIssuePage.jsx:45 | upper-casing keeps the length and leaves no lower-case letter; each lower-case letter becomes the upper-case letter it is the lower case of, every other character is kept |
| Js.ToLower | src/pages/AdminDashboardPage.jsx:93-94 | lower-casing keeps the length and leaves no upper-case letter; each upper-case letter becomes the lower-case letter it is the upper case of, every other character is kept |
| Js.TrimIsEmptyIffBlank | src/pages/SubmitIssuePage.jsx:35-36 | `!s.trim()` holds exactly when every character of `s` is white space |
| Js.NatToString | src/pages/IssueDetailsPage.jsx:105 | the decimal rendering of a clock value is a non-empty digit string that reads back as the value, with no leading zero; zero renders as `0` |
| Lists.Filter | src/context/IssueContext.jsx:60-62 | `filter` keeps exactly the elements satisfying the predicate and adds nothing: each kept value occurs as often as in the input, each dropped one not at all |
| Lists.FilterIsSubsequence | src/context/IssueContext.jsx:60-62 | `filter` keeps the order: its result is a subsequence of its input |
| Lists.FilterKeepsAll | src/pages/AdminDashboardPage.jsx:82-97 | a predicate that holds everywhere filters nothing out |
| Lists.FindFirst | src/context/IssueContext.jsx:56-58 | `find` gives the first index satisfying the predicate, or nothing when no element does |
| Session.DeviceIdAfter | src/context/AuthContext.jsx:10-17 | a stored device id is returned and storage is left alone; otherwise `"DEV-"` plus the random part is stored and returned; no other key changes |
| Session.DeviceIdIsStable | src/context/AuthContext.jsx:10-17 | once a device id exists, every later call returns it and writes nothing, whatever randomness it draws |
| Session.Expired | src/context/AuthContext.jsx:37-38 | `decoded.exp && decoded.exp < Date.now() / 1000` (also utils/ApiSocket.js:22-24): expired exactly when `exp` is present, non-zero and below the clock in seconds, compared exactly |
| Session.NoExpNeverExpires | src/context/AuthContext.jsx:37-38 | a token without `exp` is never treated as expired |
| Session.LocalStorage.SetItem | src/context/AuthContext.jsx:76 | `setItem` writes one key and keeps the rest |
| Session.LocalStorage.RemoveItem | src/context/AuthContext.jsx:95 | `removeItem` removes one key and keeps the rest |
| Session.LocalStorage.GetDeviceId | utils/ApiSocket.js:7-14 | the imperative get-or-create returns the id and leaves the storage that `DeviceIdAfter` specifies |
| IssueStore.DrawIndex | src/context/IssueContext.jsx:10 | `Math.floor(Math.random() * 36)` is an index into the alphabet |
| IssueStore.GenerateTicketId | src/context/IssueContext.jsx:6-13 | the loop builds the ticket ID of the draws: exactly 8 characters, each from `A-Z0-9` |
| IssueStore.EveryTicketIdIsGenerated | src/context/IssueContext.jsx:6-13 | every 8-character `A-Z0-9` string is produced by some draws |
| IssueStore.TicketIdsAreUpperCase | src/context/IssueContext.jsx:7 | upper-casing leaves a ticket ID unchanged |
| IssueStore.NewIssue | src/context/IssueContext.jsx:43-51 | each of id, ticket ID, status, `createdAt`, `updatedAt` and responses is the data's own when present, else its default (uuid, the generated ticket ID, `Pending`, now, now, no responses); the other fields are the data's |
| IssueStore.NewResponse | src/context/IssueContext.jsx:77-81 | a generated id and the current time, each overridden by the data's own |
| IssueStore.IssueByTicketId | src/context/IssueContext.jsx:56-58 | gives the first issue whose ticket ID is exactly equal, or none exactly when no issue has it |
| IssueStore.IssueById | src/context/IssueContext.jsx:64-66 | gives the first issue whose id is exactly equal, or none exactly when no issue has it |
| IssueStore.IssuesByStudentId | src/context/IssueContext.jsx:60-62 | gives the order-preserving subsequence of issues with that student id, all of them, each as often as in the store |
| IssueStore.WithStatus | src/context/IssueContext.jsx:69-73 | the mapped list keeps its length and every record's id |
| IssueStore.WithResponse | src/context/IssueContext.jsx:82-86 | the mapped list keeps its length and every record's id |
| IssueStore.WithStatusUnknownIdIsNoOp | src/context/IssueContext.jsx:68-74 | a status update for an id no issue has changes nothing |
| IssueStore.WithResponseUnknownIdIsNoOp | src/context/IssueContext.jsx:76-87 | a response for an id no issue has changes nothing |
| IssueStore.WithStatusIsIdempotent | src/context/IssueContext.jsx:68-74 | repeating the same status update at the same time changes nothing more |
| IssueStore.WithStatusThenLookup | src/context/IssueContext.jsx:68-74 | after an update, looking the id up gives the old record with the new status and time |
| IssueStore.WithResponseThenLookup | src/context/IssueContext.jsx:76-87 | after adding, looking the id up gives the old record with the response appended last |
| IssueStore.Store.constructor | src/context/IssueContext.jsx:17 | the store starts empty |
| IssueStore.Store.AddIssue | src/context/IssueContext.jsx:40-54 | grows the store by one at the end, leaves earlier issues unchanged, and returns the generated (well-formed) ticket ID |
| IssueStore.Store.UpdateIssueStatus | src/context/IssueContext.jsx:68-74 | only the issues whose id matches change, and only in status and `updatedAt` |
| IssueStore.Store.AddResponse | src/context/IssueContext.jsx:76-87 | matching issues gain exactly one response at the end and a new `updatedAt`; the others are unchanged |
| AdminDashboard.AllIssues | src/pages/AdminDashboardPage.jsx:73 | the store's issues followed by the three sample issues: three more than the store holds |
| AdminDashboard.Keep | src/pages/AdminDashboardPage.jsx:82-97 | a kept issue matches the status and category filters (or they are `All`); with an empty query, or one whose lower-cased form occurs in the lower-cased ticket ID, those two filters decide alone |
| AdminDashboard.FilteredIssues | src/pages/AdminDashboardPage.jsx:82-97 | an order-preserving subsequence of the input, holding every issue the filter keeps, as often as in the input, and no other |
| AdminDashboard.NoFilterKeepsEverything | src/pages/AdminDashboardPage.jsx:82-97 | with `All`, `All` and an empty query every issue passes |
| AdminDashboard.FiltersAreExact | src/pages/AdminDashboardPage.jsx:84-89 | a status or category filter other than `All` keeps only exact matches |
| AdminDashboard.SearchKeepsExactlyMatches | src/pages/AdminDashboardPage.jsx:92-95 | a non-empty query keeps an issue exactly when its lower-cased form occurs in the lower-cased title, description or ticket ID |
| AdminDashboard.Insert | src/pages/AdminDashboardPage.jsx:99-105 | inserting into a sorted list gives a sorted list with one more copy of the element |
| AdminDashboard.SortByCreatedAt | src/pages/AdminDashboardPage.jsx:99-105 | the sorted list is a permutation of the filtered list, newest first for `newest` and oldest first otherwise |
| AdminDashboard.SortedIssues | src/pages/AdminDashboardPage.jsx:99-105 | `sortedIssues` is a permutation of `filteredIssues` with non-increasing `createdAt` when the choice is `newest`, non-decreasing for any other choice |
| AdminDashboard.Visible | src/pages/AdminDashboardPage.jsx:73-105 | the rendered list is a permutation of the filtered `allIssues`, in the chosen date order |
| AdminDashboard.VisibleRowsPassTheFilters | src/pages/AdminDashboardPage.jsx:73-105 | every rendered row is a stored or sample issue that passes the filters |
| AdminDashboard.DefaultFiltersShowEverything | src/pages/AdminDashboardPage.jsx:73-112 | under the initial filters the dashboard shows all issues, sample ones included, newest first |
| AdminDashboard.LookupPut | src/pages/AdminDashboardPage.jsx:125 | writing a counter key changes the value read under that key only |
| AdminDashboard.KeysPut | src/pages/AdminDashboardPage.jsx:131 | in the association list, writing an existing key keeps the key order and a new key is added last; this is the order `Object.entries` gives only for keys that are not array indices |
| AdminDashboard.SumPut | src/pages/AdminDashboardPage.jsx:129 | writing a key changes the sum of the counts by the difference |
| AdminDashboard.LookupInKeys | src/pages/AdminDashboardPage.jsx:124 | a key reads back as defined exactly when it is one of the object's keys |
| AdminDashboard.CountCategoryPositive | src/pages/AdminDashboardPage.jsx:128-131 | a category is counted at least once exactly when some issue has it |
| AdminDashboard.CalculateStats | src/pages/AdminDashboardPage.jsx:114-138 | given only the store's issues, with no filter as input, the `forEach` loop computes the status and category tallies of `allIssues`, the store's issues followed by the samples |
| AdminDashboard.StatusTallyCounts | src/pages/AdminDashboardPage.jsx:115-126 | the status counts have exactly the four keys, in order, each holding the number of issues with that status, and no other key |
| AdminDashboard.StatusTallySum | src/pages/AdminDashboardPage.jsx:122-126 | the status counts plus the issues with another status add up to the number of issues |
| AdminDashboard.CategoryTallyCounts | src/pages/AdminDashboardPage.jsx:127-132 | each category present is counted with the number of issues in it; absent categories have no key |
| AdminDashboard.CategoryTallySum | src/pages/AdminDashboardPage.jsx:121-133 | the category counts sum to the number of issues |
| AdminDashboard.StatsIgnoreFilters | src/pages/AdminDashboardPage.jsx:114-139 | the tallies of `allIssues` account for every stored issue and the three samples: the category counts sum to the store's size plus 3, as do the status counts plus the issues with another status |
| AdminDashboard.Filters.constructor | src/pages/AdminDashboardPage.jsx:75-78 | the filters start at `All`, `All`, `newest` and an empty query |
| AdminDashboard.Filters.ResetFilters | src/pages/AdminDashboardPage.jsx:107-112 | `resetFilters` restores `All`, `All`, `newest` and an empty query |
| SubmitIssue.MatchesEmailPattern | src/pages/SubmitIssuePage.jsx:42 | an accepted email has at least five characters and an `@` with a character before it and three after; any `@` and later `.` with non-space text around and between them are accepted |
| SubmitIssue.EmailPatternExamples | src/pages/SubmitIssuePage.jsx:42 | the unanchored `\S+@\S+\.\S+` accepts addresses with text around them and rejects `a@b`, `a@.b` and `a @b.c` |
| SubmitIssue.FormErrors | src/pages/SubmitIssuePage.jsx:33-46 | `newErrors` never holds an `api` entry, and every message it holds is non-empty |
| SubmitIssue.FormErrorsAt | src/pages/SubmitIssuePage.jsx:33-46 | each error key is present exactly when its own check fails, and holds that check's message |
| SubmitIssue.FormErrorsEmptyIffOk | src/pages/SubmitIssuePage.jsx:33-48 | no error is recorded exactly when: title and description are not blank, a category is chosen, and (named mode only) name, phone and admission are not blank and the email is not blank and matches the pattern |
| SubmitIssue.AnonymousSkipsContactChecks | src/pages/SubmitIssuePage.jsx:39-45 | in anonymous mode the contact fields do not affect the errors, and only title, description and category can be reported |
| SubmitIssue.BlankEmailIsOnlyRequired | src/pages/SubmitIssuePage.jsx:41-42 | a blank email in named mode is reported as required, never as malformed |
| SubmitIssue.IssuePayload | src/pages/SubmitIssuePage.jsx:55-64 | an anonymous payload carries null name, user id, email, phone and admission; a named one carries the fields and the user's `user_id` |
| SubmitIssue.RecentTicketsAfter | src/pages/SubmitIssuePage.jsx:73-76 | the new ticket comes first, then the old list's prefix in order, with length `min(old + 1, 10)` |
| SubmitIssue.ApiErrorMessage | src/pages/SubmitIssuePage.jsx:79 | the server's error text when it is present and non-empty, otherwise "Server error. Try again later."; never empty |
| SubmitIssue.SubmitIssueForm.constructor | src/pages/SubmitIssuePage.jsx:12-22 | the form starts anonymous, empty and unsubmitted |
| SubmitIssue.SubmitIssueForm.PrefillFromUser | src/pages/SubmitIssuePage.jsx:25-31 | a logged-in student switches the form to named mode with their name and email; anything else changes nothing |
| SubmitIssue.SubmitIssueForm.ValidateForm | src/pages/SubmitIssuePage.jsx:33-49 | stores the errors of the current fields and reports success exactly when the form is acceptable |
| SubmitIssue.SubmitIssueForm.HandleSubmit | src/pages/SubmitIssuePage.jsx:51-81 | an invalid form posts nothing; a valid one posts its payload, and on acceptance records the ticket at the head of the recent list; on failure the errors become one `api` entry |
| SubmitIssue.SubmitIssueForm.HandleNewSubmission | src/pages/SubmitIssuePage.jsx:83-94 | empties the form and the errors, leaves the submitted state, and refills name and email from the user |
| TrackIssue.TrackIssuePage.constructor | src/pages/TrackIssuePage.jsx:9-12 | the page starts with no ID, no search, no issue and no error |
| TrackIssue.TrackIssuePage.OnTicketInput | src/pages/TrackIssuePage.jsx:45 | the stored ID is the upper-cased input, without lower-case letters |
| TrackIssue.TrackIssuePage.HandleSearch | src/pages/TrackIssuePage.jsx:13-27 | a blank ID only sets "Please enter a Ticket ID"; otherwise the search is marked done, the issue is the exact lookup, and the error names the ID exactly when nothing is found |
| TrackIssue.TypedTicketIdIsFound | src/pages/TrackIssuePage.jsx:45 | typing a stored ticket ID finds its issue |
| TrackIssue.PaddedTicketIdIsNotFound | src/pages/TrackIssuePage.jsx:15-19 | a ticket ID with a trailing space passes the blank check but is not found, because the lookup is not trimmed |
| IssueDetails.ResolveIssue | src/pages/IssueDetailsPage.jsx:58 | an id starting with `dummy` is resolved from the sample map only; any other id by `getIssueById` |
| IssueDetails.DashboardSampleThreeIsNotFound | src/pages/IssueDetailsPage.jsx:8-41 | the dashboard's third sample issue `dummy-3` has no detail record and shows "Issue Not Found" |
| IssueDetails.DummyResponse | src/pages/IssueDetailsPage.jsx:104-110 | a sample issue's response has the id `resp-<time>`, the text and time, the admin id and the non-empty admin name taken from the user as the stored path takes them |
| IssueDetails.AdminIdOf | src/pages/IssueDetailsPage.jsx:99 | the admin id is the user's id, or empty when there is no user or the id is missing or empty |
| IssueDetails.AdminNameOf | src/pages/IssueDetailsPage.jsx:100 | the admin name is the user's name, or `Admin` when there is no user or the name is missing or empty |
| IssueDetails.IssueDetailsPage.constructor | src/pages/IssueDetailsPage.jsx:55-56 | the response text and error start empty |
| IssueDetails.IssueDetailsPage.HandleStatusChange | src/pages/IssueDetailsPage.jsx:81-89 | a stored issue goes through `updateIssueStatus`, a sample one is changed in place; either way the record the page reads now carries the new status and time |
| IssueDetails.IssueDetailsPage.HandleSubmitResponse | src/pages/IssueDetailsPage.jsx:90-115 | a blank text only sets "Response text is required"; otherwise exactly one response with the text is added, to the store or the sample issue, and text and error are cleared |
| ProtectedRoute.Guard | src/components/ProtectedRoute.jsx:4-18 | unauthenticated visitors go to `/admin/login`; authenticated ones see the children exactly when their role equals `requiredRole`, else go to `/` |
| ProtectedRoute.GuardAsRouted | src/App.jsx:78 | with `requiredRoles` passed, an unauthenticated visitor goes to `/admin/login` and an authenticated one sees the children exactly when they have no role, whatever the list holds |
| ProtectedRoute.GuardForRoles | src/components/ProtectedRoute.jsx:4-18 | the guard as its callers intend it: authenticated visitors see the children exactly when their role is in `requiredRoles` |
| ProtectedRoute.GuardForOneRole | src/components/ProtectedRoute.jsx:12-17 | with a one-role list, the intended guard decides as the written guard does for that role |
| ProtectedRoute.AsRoutedLocksOutAdmins | src/App.jsx:78 | as routed, an authenticated admin is sent to `/` and a role-less user is admitted |
| ProtectedRoute.ForRolesAdmitsAdmins | src/App.jsx:78 | under the intended guard the admin is admitted and the role-less user is sent to `/` |
| StatusBadge.StatusColor | src/components/StatusBadge.jsx:6-19 | `Pending`, `In Review` and `Resolved` get their own classes; `Closed` and every other status get `status-closed` |
| StatusBadge.SizeClasses | src/components/StatusBadge.jsx:20-31 | `sm` and `lg` get their own classes; `md` and every other size get the medium classes |
| StatusBadge.RenderBadge | src/components/StatusBadge.jsx:32-34 | the badge text is the status unchanged, and its classes are the base, colour and size classes |
| StatusBadge.UnknownSizeIsMedium | src/components/StatusBadge.jsx:4 | an unknown size renders as the default size `md` |
| Auth.HomeForRole | src/context/AuthContext.jsx:84-87 | `admin` lands on `/admin/dashboard`, `student` on `/student/dashboard`, any other role or none on `/unauthorized` |
| Auth.CheckSession | src/context/AuthContext.jsx:25-57 | the session is kept exactly when the token decodes, is not expired, and the profile request returns a user; that user is adopted |
| Auth.KeptSessionsAreLive | src/context/AuthContext.jsx:37-42 | a kept token is well-formed and its `exp` is missing, zero or not yet passed |
| Auth.LandingPageIsOpenOnlyUnderCorrectedGuard | src/context/AuthContext.jsx:84-87 | an admin or student lands on a dashboard that the intended guard opens and the guard as routed closes |
| Auth.AuthProvider.constructor | src/context/AuthContext.jsx:21-22 | the token starts as the stored one, the user as none |
| Auth.AuthProvider.IsAuthenticated | src/context/AuthContext.jsx:102 | `!!token`: authenticated exactly when a non-empty token is held |
| Auth.AuthProvider.Logout | src/context/AuthContext.jsx:94-99 | the stored token is removed, token and user are cleared, and the browser goes to the redirect (default `/login`) |
| Auth.AuthProvider.OnTokenChange | src/context/AuthContext.jsx:25-57 | without a token nothing happens; otherwise the session check's verdict either adopts the user or logs out to `/access-denied` |
| Auth.AuthProvider.Login | src/context/AuthContext.jsx:69-92 | the device id is fixed first; a reply without a token stores nothing else and fails; otherwise the token is stored, the profile's user is adopted and the role's landing page is chosen |
| ApiSocket.TokenCheck | utils/ApiSocket.js:16-36 | a token is handed out exactly when one is stored, it decodes and is not expired; a stored but rejected token is removed; nothing else changes |
| ApiSocket.TokenCheckIsIdempotent | utils/ApiSocket.js:16-36 | checking again at the same instant changes nothing and gives the same answer |
| ApiSocket.TokenCheckKeepsOtherEntries | utils/ApiSocket.js:16-36 | the check touches only the `token` entry |
| ApiSocket.ApiClient.GetToken | utils/ApiSocket.js:16-36 | the imperative `getToken` returns the token and leaves the storage that `TokenCheck` specifies |
| ApiSocket.ApiClient.RequestHeaders | utils/ApiSocket.js:45-57 | every request carries the device id; `Authorization: Bearer <t>` is set when a token `t` survives the check; an `Authorization` header the caller set is kept when no token survives; other headers are kept |
| ApiSocket.ApiClient.OnResponseError | utils/ApiSocket.js:64-86 | 440 removes the token and goes to `/access-denied`; 401 only goes there; anything else changes nothing; the error is passed on |
| Sitemap.Handler | api/sitemap.js:1-30 | status 200, XML content type, and a document that starts with the XML declaration and reads back as the seven routes |
| Sitemap.RoutesAreOnTheSite | api/sitemap.js:4-14 | the seven locations are distinct and each is the base URL followed by a path |
| Sitemap.RoutesAreTextOnly | api/sitemap.js:6-14 | no location or priority contains markup |
| Sitemap.UrlBlockHoldsValues | api/sitemap.js:20-24 | one `<url>` element is the opening tags, the location verbatim, the `weekly` change frequency and priority tags, the priority verbatim, and the closing tags |
| Sitemap.BodyAppend | api/sitemap.js:18-26 | the body is the elements joined by single line breaks: one more entry appends a line break and its element |
| Sitemap.SitemapFraming | api/sitemap.js:16-27 | the document is the XML declaration and `<urlset>` opening, then the body, then a line break and `</urlset>` |
| Sitemap.ParseBlockStep | api/sitemap.js:20-24 | one `<url>` element, with its `weekly` change frequency, reads back as its location and priority, verbatim |
| Sitemap.ParseBody | api/sitemap.js:18-26 | the elements joined by line breaks read back as the entries, one per element, in order |
| Sitemap.RoundTrip | api/sitemap.js:16-27 | the whole document, declaration and `urlset` included, reads back as the list it was made from |

## Left out

- JSON serialisation of the store and of the recent tickets, and the revival of `Date` strings on load: the store and the ticket list are modelled as decoded sequences.
- Times are integers (milliseconds), and one clock instant stands for every `new Date()` within one handler call. The sample dates, written without a zone, are taken as UTC.
- The JWT `exp` claim is taken to be an integer. `exp < Date.now() / 1000` is computed as `exp * 1000 < now` and proved equal to the exact comparison; floating-point rounding of the division is not modelled.
- The `setTimeout` auto-logout of the token effect (including its NaN delay when `exp` is missing), the cleanup of that timer, and `await` ordering. The profile and login requests' replies are parameters, so the interceptor's effects during those requests are not modelled.
- The response interceptor's success handler, which passes the response on unchanged: there is nothing to state.
- `window.location.href` and `navigate` targets are plain string fields. Rendering, JSX, the not-found view, Tailwind classes and the statistics bar widths (floating point) are not modelled.
- `Math.random` and `uuidv4` are parameters. The base-36 device-id suffix is an arbitrary string.
- A missing (`undefined`) and a `null` profile field or role both become `None`.
- Case mapping covers ASCII letters only, and white space covers the JavaScript white-space and line-terminator characters.
- JavaScript objects used as counters are association lists. Keys inherited from `Object.prototype` (a status of `"toString"`, say) are not modelled.
- AdminDashboard.KeysPut: new keys are added last. `Object.entries` (src/pages/AdminDashboardPage.jsx:194) lists keys that look like array indices (a category `"2"`, say) first, in numeric order, so for such categories the displayed order is not modelled.
- AdminDashboard.SortByCreatedAt: the contract does not state the relative order of issues with equal `createdAt`.
- IssueDetails.IssueDetailsPage.HandleStatusChange: a sample issue is mutated in place without a state update, so React does not re-render it; the model states the new record, not what is on screen.
- Issue fields the core never reads (`isAnonymous`, `studentName`, `studentEmail` of the samples) are left out of the `Issue` record.
- SubmitIssue.SubmitIssueForm.ValidateForm: the `newErrors` object is computed by the pure chain of checks `FormErrors` rather than assigned key by key, and its keys are an enumeration rather than strings.
- The `id &&` test before `startsWith('dummy')`: the route always supplies an id.
- IssueDetails.IssueDetailsPage.HandleStatusChange: it requires that the issue resolves, since the handlers exist only on the rendered page.
- IssueDetails.IssueDetailsPage.HandleSubmitResponse: it requires that the issue resolves, for the same reason.
- `LoginPage.jsx`, `AdminLoginPage.jsx`, the other pages and components, and `server.py` are not part of this model.

## Findings

| source | as written | input that shows it | evidently intended | confidence | as-written member | corrected member |
|---|---|---|---|---|---|---|
| src/App.jsx:78 | the routes pass `requiredRoles={["admin"]}` but the guard reads `requiredRole`, which is then undefined, so it admits only users without a role | an authenticated user with role `admin` opening `/admin/dashboard` is redirected to `/`, while an authenticated user without a role is admitted | admit an authenticated user exactly when their role is in `requiredRoles` | high, not executed | ProtectedRoute.AsRoutedLocksOutAdmins | ProtectedRoute.ForRolesAdmitsAdmins |
