# ResQ front-end logic, modelled in Dafny

ResQ is an incident-reporting web application. Citizens report floods,
fires, accidents and the like. Barangay officials manage their profiles.
Every citizen follows their own reports through a history page and a
dashboard map. This project models the decision logic of the browser
scripts and proves properties of it:

- `incidents.dfy` (`Incidents`): the incident record, the status
  resolution `getIncidentStatus`/`calculateStatus`, the type, status and
  severity descriptor tables, and the status progress bar (from
  `user/js/history.js`).
- `history.dfy` (`History`): the status/search filter, the statistics,
  the grouping of the cards by month, the card's status as written and as
  intended, the image carousel, and the page's module state
  (`HistoryView`: the loaded incidents, the filtered list, the page
  counter, the gallery, the statistics on screen), including the render
  that throws on a card without a status and the errors it raises.
- `home.dfy` (`Home`): the dashboard's marker colours and icons, the
  incident counts, the statistics display with its `|| 0` defaults, the
  marker loop that throws on a null status, and `initializeMap` with its
  demo fallback (`Dashboard`).
- `auth.dfy` (`Auth`): the login and registration handlers of
  `js/index.js`, including trimming, the default role, the ordered form
  validation, the e-mail regular expression, the session storage and the
  dashboard redirect.
- `barangay_profile.dfy` (`BarangayProfile`): the official's profile page.
  It covers initials, the barangay name lookup, the header and status
  display, the save validation and payload, and the barangay drop-down
  built from the page state (`BarangayProfilePage`).
- `user_profile.dfy` (`UserProfile`): the resident's profile page. It
  covers the barangay lookup, the drop-down, and the edit dialog's save
  (`UserProfilePage`).
- `report.dfy` (`Report`): the incident report form (`ReportForm`). It
  covers the type and severity selection, the photo flag, the
  coordinates, the 500-character description counter, and the submit
  handler's ordered validation and payload.
- Shared modules:
  - `js_text.dfy` (`JsText`): JavaScript's `trim`, ASCII case mapping and
    `includes`.
  - `js_value.dfy` (`Options`, `Requests`, `JsValue`): JavaScript values
    with truthiness, `||` and loose `==`, plus the three outcomes of a
    request.
  - `collections.dfy` (`Collections`): `filter`, counting, `indexOf`,
    `find`, and `table[key] || table[default]`.
  - `profile_data.dfy` (`ProfileData`): the profile record, barangay list
    entries and drop-down options.

How the model stands in for the browser:

- The current time and the month label of an incident are parameters.
- Every request is an input. It either threw, answered `success: false`,
  or delivered data.
- A DOM input is a field or parameter holding its value.
- Event handlers are methods of the page's class. Each method's contract
  states the page's whole new state.

## Model

| member | source | states |
|---|---|---|
| Incidents.CalculateStatus | user/js/history.js:225-231 | the age fallback: pending under one whole day, ongoing under three, resolved otherwise or when the creation date does not parse; each in both directions |
| Incidents.GetIncidentStatus | user/js/history.js:218-222 | a truthy backend status is returned verbatim; otherwise the result is a lifecycle status, pending exactly for an incident less than a day old |
| Incidents.BackendStatusWins | user/js/history.js:221 | a truthy status gives the same answer at every time |
| Incidents.FutureIncidentIsPending | user/js/history.js:226-228 | without a status, an incident created in the future is pending |
| Incidents.FallbackMonotone | user/js/history.js:226-230 | without a status, the fallback never moves backwards in the lifecycle as time passes |
| Incidents.GetIncidentTypeInfo | user/js/history.js:85-154 | the result is always a table entry: the type's own entry, or the 'Other Incident' entry for an unknown type |
| Incidents.GetStatusInfo | user/js/history.js:157-186 | the status's own entry, or the PENDING entry for any other value |
| Incidents.GetSeverityInfo | user/js/history.js:189-215 | the severity's own entry, or the 'Medium Severity' entry for any other value |
| Incidents.TableKeys | user/js/history.js:85-214 | the three tables are keyed by exactly the eight types, the three statuses and the three severities |
| Incidents.CriticalSeverityIsMedium | user/js/history.js:214 | 'critical' has no entry and displays as medium |
| Incidents.LifecycleStatusInfoDistinct | user/js/history.js:185 | a fallback status's badge is its own entry, with its own upper-case label |
| Incidents.Rank | user/js/history.js:235-239 | a status's position among the progress steps, and -1 exactly for a value that is not a lifecycle status |
| Incidents.ProgressSpec | user/js/history.js:242-251 | one class per step, as the step/status comparison decides |
| Incidents.CreateStatusProgress | user/js/history.js:234-264 | the loop over the steps produces exactly the specified classes |
| Incidents.ProgressClassification | user/js/history.js:242-251 | exactly one active step for a lifecycle status, at its own position; completed exactly for the steps before it; no marked step for any other status |
| History.FilterIncidents | user/js/history.js:559-575 | an incident is shown iff it was loaded, passes the status chip, and (when there is a term) its description, type or barangay name contains the lower-cased term |
| History.FilterIsConjunction | user/js/history.js:563-575 | the two successive filters equal one filter by both conditions |
| History.FilterPreservesOrder | user/js/history.js:559-575 | the filtered list is a subsequence of the loaded list |
| History.FilterAllEmptyIsIdentity | user/js/history.js:604 | `filterIncidents('all', '')` shows every loaded incident |
| History.SearchIgnoresTermCase | user/js/history.js:569 | lower-casing the term beforehand changes nothing |
| History.FilterAppend | user/js/history.js:777-785 | filtering the list with a page appended is filtering each part, so earlier matches stay first |
| History.UpdateStatistics | user/js/history.js:541-556 | the total is the list length; the three counts never exceed it, and add up to it when every status is a lifecycle status |
| History.FallbackStatisticsAddUp | user/js/history.js:541-545 | without backend statuses every incident is counted exactly once |
| History.StatisticsMatchChips | user/js/history.js:541-565 | each count equals the number of cards the corresponding status chip shows |
| History.FirstOccurrences | user/js/history.js:338 | the months without repetition, each listed once iff it occurs |
| History.GroupByMonth | user/js/history.js:325-334 | the month keys appear in first-occurrence order, one per month; each month's list is exactly that month's incidents, in list order |
| History.GroupingStepSeen | user/js/history.js:330-333 | one iteration on a month already keyed keeps the keys, the month order and every group exact |
| History.GroupingStepNew | user/js/history.js:330-333 | one iteration on a new month appends it to the order, creates its list and keeps every group exact |
| History.GroupingIsExact | user/js/history.js:326-334 | each incident lands in its own month's group and in no other |
| History.GroupKeepsOrder | user/js/history.js:333 | each month's group is a subsequence of the list |
| History.GroupingIsPermutation | user/js/history.js:338-346 | the cards emitted month by month are a permutation of the incidents |
| History.FirstOccurrenceOrder | user/js/history.js:338 | the months come in the order of their first incident |
| History.StringAsIncident | user/js/history.js:348 | a status string read as an incident has neither status nor creation date |
| History.RenderCardAsWritten | user/js/history.js:346-412 | the card as written: it throws exactly when the status is null or missing |
| History.CardAsWrittenAlwaysResolved | user/js/history.js:348-408 | as written, every rendered card carries `data-status="resolved"` and the 'Rate Response' button |
| History.PendingCardOffersRating | user/js/history.js:348-408 | a fresh pending incident is badged PENDING yet marked resolved and offered for rating |
| History.RenderCard | user/js/history.js:346-412 | the intended card carries the incident's resolved status, and a rating button exactly when that status is resolved |
| History.CardAgreesWithChips | user/js/history.js:354-565 | with the intended card, a chip shows an incident iff its card carries the chip's status; the rating button appears iff the 'resolved' chip shows it |
| History.NavigatedIndex | user/js/history.js:893-895 | the step stays in range, wraps below 0 to the last image and past the end to the first |
| History.NavigationIsModular | user/js/history.js:893-895 | a single step either way is a step modulo the number of images |
| History.NavigationRoundTrip | user/js/history.js:893-895 | next then previous (and previous then next) returns to the image shown |
| History.RenderThrows | user/js/history.js:338-348 | rendering throws iff some card to render has a null or missing status |
| History.RenderThrowsInCardOrder | user/js/history.js:324-348 | whether rendering throws is the same for the month-grouped card order as for the list order |
| History.HistoryView.constructor | user/js/history.js:4-9 | the module state at script load, with no statistics shown yet |
| History.HistoryView.ApplyFilters | user/js/history.js:559-580 | the filtered list becomes the filter of all incidents; it reports a throw iff rendering that list throws, in which case the statistics on screen stay as they were, and otherwise they become the list's statistics; nothing else changes |
| History.HistoryView.Initialize | user/js/history.js:583-613 | a delivered page replaces the incidents and the has-more flag and shows them all; the error view appears iff the request throws, the answer is unsuccessful, or rendering the delivered list throws, and only without it do the statistics change, to the delivered list's |
| History.HistoryView.LoadMoreIncidents | user/js/history.js:769-802 | nothing without more pages; otherwise the page counter is advanced and requested; a delivered page is appended and the filters re-applied; a thrown or unsuccessful request keeps the advanced counter and the old lists; the error dialog appears iff the request throws or rendering the new list throws, and the statistics change only after a delivered page renders |
| History.HistoryView.PreviewImage | user/js/history.js:872-874 | the gallery becomes the images, positioned at the first copy of the source, or at -1 when absent |
| History.HistoryView.NavigateImage | user/js/history.js:890-899 | no move with at most one image; otherwise the wrapping step, which stays in range |
| History.HistoryView.CloseImagePreview | user/js/history.js:902-907 | the gallery is emptied and its index reset to 0 |
| Home.GetStatusColor | user/js/home.js:76-83 | the status's colour, or the pending colour for any other value |
| Home.GetIncidentTypeIcon | user/js/home.js:86-98 | the type's icon, or the warning-triangle icon for any other type |
| Home.StatusColorsDistinct | user/js/home.js:77-81 | the three statuses have three different colours |
| Home.UpdateIncidentCounts | user/js/home.js:239-247 | the three counts never exceed the list, and add up to it when every status is a lifecycle status |
| Home.UnrecognisedStatusNotCounted | user/js/home.js:240-242 | an incident without a lifecycle status, at any position in the list, is counted under none of the three |
| Home.CountsIgnoreUnrecognised | user/js/home.js:240-242 | the counts of any list equal the counts of its incidents with a lifecycle status |
| Home.CountsOfAnyList | user/js/home.js:240-242 | for every list, each count equals the history page's count of that status over the incidents with a lifecycle status |
| Home.CountsAgreeWithHistory | user/js/home.js:240-242 | when every status is a lifecycle status, the dashboard counts equal the history page's counts |
| Home.CountsDisagreeWithoutStatus | user/js/home.js:240-242 | an incident without status is counted by the history page (as pending) but not by the dashboard |
| Home.UpdateDashboardStats | user/js/home.js:101-106 | each figure is shown as sent when truthy, and as 0 otherwise |
| Home.UpdateDashboardStatsIdempotent | user/js/home.js:101-106 | showing the shown figures again changes nothing |
| Home.PlotSpec | user/js/home.js:187-215 | the loop throws iff some incident with coordinates has no status; otherwise it places one pin per incident with coordinates; every pin has a status colour |
| Home.AddIncidentMarkers | user/js/home.js:187-215 | the loop over the incidents places the specified pins and throws exactly when specified |
| Home.DemoCounts | user/js/home.js:250-310 | the demo set counts one incident per status and plots three pins without throwing |
| Home.Dashboard.LoadDemo | user/js/home.js:233-321 | the demo pins are added, the counts become 1/1/1 and the demo figures are shown |
| Home.Dashboard.InitializeMap | user/js/home.js:161-236 | a thrown request or marker loop falls back to the demo data, after any pins already placed; otherwise delivered incidents are stored, counted and plotted and delivered figures shown |
| Home.Dashboard.ShowIncidents | user/js/home.js:180-215 | the incidents are stored and counted, their pins added, and the loop's throw reported |
| Auth.ValidEmailMatches | js/index.js:224-226 | whatever `isValidEmail` accepts splits as `^[^\s@]+@[^\s@]+\.[^\s@]+$` requires |
| Auth.MatchIsValidEmail | js/index.js:224-226 | whatever the regular expression matches is accepted |
| Auth.EmailValidIffPattern | js/index.js:224-226 | `isValidEmail` accepts exactly the strings the regular expression matches |
| Auth.EmailAccepted | js/index.js:225 | a plain address passes |
| Auth.EmailRejected | js/index.js:225 | a missing local part, a second '@' and a trailing dot fail |
| Auth.ValidateRegistrationForm | js/index.js:214-222 | the form passes iff both names and the e-mail are non-empty, the e-mail is valid, the password has 8 characters or more and matches its confirmation |
| Auth.ValidationStopsAtFirstFailure | js/index.js:215-220 | the message shown is that of the first failing check, in the handler's order |
| Auth.RoleOf | js/index.js:147-148 | the checked role, or 'user' when none is checked |
| Auth.PrepareRegistration | js/index.js:141-172 | the trimmed fields are validated; a valid form sends exactly the trimmed fields and the role |
| Auth.BlankFirstNameRejected | js/index.js:141-215 | a whitespace-only first name is rejected first |
| Auth.SentPasswordIsTrimmed | js/index.js:145-219 | a sent password has at least 8 characters and no whitespace at either end |
| Auth.PrepareLogin | js/index.js:79-97 | the login request carries the trimmed credentials, and the checked role's value, or 'user' when no role is checked |
| Auth.LoginIsStable | js/index.js:79-82 | preparing a prepared request again, with its role checked, gives the same request |
| Auth.StoreSession | js/index.js:102-106 | a success stores the user record, the role and the CSRF token and keeps every other key; any other outcome leaves storage as it was |
| Auth.RedirectToDashboard | js/index.js:237-246 | the role's dashboard, or the citizen home page for any other role |
| Auth.LoginRedirect | js/index.js:102-122 | only a successful login redirects, to the dashboard of the role sent |
| Auth.DefaultRoleLogin | js/index.js:82-115 | without a checked role, a successful login lands on the citizen home page |
| JsText.Trim | js/index.js:79-80 | the result is no longer than the input and has no whitespace at either end |
| JsText.TrimShape | js/index.js:79-80 | the trimmed text is a contiguous middle of the input, with only whitespace removed before and after it |
| JsText.TrimEmptyIffAllSpace | barangay/js/profile.js:189-198 | a field trims to empty exactly when it is all whitespace |
| JsText.TrimIdempotent | user/js/profile.js:244-246 | trimming a trimmed value changes nothing |
| JsText.Lower | user/js/history.js:569-573 | lower-casing maps every character and keeps the length |
| JsText.LowerIdempotent | user/js/history.js:569 | lower-casing twice is lower-casing once |
| JsText.Contains | user/js/history.js:571-573 | `includes` holds iff the term occurs at some position |
| JsText.ContainsEmpty | user/js/history.js:568 | every text includes the empty term |
| JsValue.Or | user/js/home.js:102 | `a \|\| b` is `a` when `a` is truthy and `b` otherwise |
| JsValue.OrText | barangay/js/profile.js:133 | a null or empty text field falls back to the default |
| JsValue.LooseEqSymmetric | barangay/js/profile.js:125 | `a == b` iff `b == a` |
| JsValue.LooseEqUndefined | barangay/js/profile.js:117-125 | `undefined == v` holds exactly for `undefined` and `null` |
| JsValue.ToNumberOfDecimal | barangay/js/profile.js:123-125 | a number's decimal rendering reads back as that number |
| JsValue.NumEqualsItsDecimal | barangay/js/profile.js:123-125 | a numeric id loosely equals the string the select box holds for it |
| JsValue.LooseEqNotTransitive | barangay/js/profile.js:125 | a digit string and the same digits with a leading zero both loosely equal the number, but not each other |
| Collections.Keep | user/js/history.js:564-574 | `filter` keeps exactly the elements satisfying the predicate |
| Collections.KeepIsSubsequence | user/js/history.js:564-574 | `filter` keeps the relative order |
| Collections.KeepKeep | user/js/history.js:564-574 | two successive filters are one filter by the conjunction |
| Collections.KeepAppend | user/js/history.js:777 | filtering distributes over concatenation |
| Collections.KeepLength | user/js/history.js:543-545 | the length of a filter is the number of elements satisfying the predicate |
| Collections.CountThreeWays | user/js/history.js:542-545 | three mutually exclusive counts never exceed the length, and add up to it when every element falls under one |
| Collections.IndexOf | user/js/history.js:874 | `indexOf` is the first position of the element, or -1 exactly when absent |
| Collections.FindIndex | barangay/js/profile.js:162 | `find` stops at the first element satisfying the callback, or finds none exactly when none does |
| Collections.LookupOr | user/js/history.js:153 | `table[key] \|\| table[default]` is the key's entry or the default's |
| BarangayProfile.GetInitials | barangay/js/profile.js:167-171 | one or two characters: the upper-cased first letters of the names given, one character when exactly one name is given, two when both are, 'U' when neither is |
| BarangayProfile.InitialsAreCapitals | barangay/js/profile.js:168-169 | initials never contain a lower-case ASCII letter |
| BarangayProfile.InitialsIgnoreCase | barangay/js/profile.js:168-169 | the initials do not depend on the names' capitalisation |
| BarangayProfile.GetBarangayNameAsWritten | barangay/js/profile.js:161-164 | as written: 'Barangay not set' when no entry's `id` loosely equals the id, else the first such entry's name |
| BarangayProfile.ServerListNeverMatches | barangay/js/profile.js:162 | as written, on the server's list (no `id` fields) a set id always reads 'Barangay not set' |
| BarangayProfile.UnsetIdShowsFirstEntry | barangay/js/profile.js:162-163 | as written, a profile without a barangay shows the first listed barangay |
| BarangayProfile.ListedBarangayNotFound | barangay/js/profile.js:162 | a listed barangay 1 reads 'Barangay not set' as written, and its name when matched on `baranggay_id` |
| BarangayProfile.GetBarangayName | barangay/js/profile.js:161-164 | corrected: the name of the first entry whose `baranggay_id` loosely equals the id, else 'Barangay not set' |
| BarangayProfile.NameMatchesSelectedOption | barangay/js/profile.js:125-140 | the first option the drop-down flags as selected is the barangay the profile names |
| BarangayProfile.DisplayName | barangay/js/profile.js:133-134 | the header name is never empty and has no whitespace at either end |
| BarangayProfile.DisplayNameFallback | barangay/js/profile.js:133-134 | 'User' exactly when both names are blank, else the trimmed "first last" |
| BarangayProfile.StatusClass | barangay/js/profile.js:149-153 | green iff the status is 'active', yellow iff 'pending', red iff anything else |
| BarangayProfile.VerificationText | barangay/js/profile.js:155 | 'Verified' iff the profile has a non-empty e-mail, else 'Unverified' |
| BarangayProfile.SaveProfile | barangay/js/profile.js:185-218 | the names are checked before the e-mail, each after trimming; a sent update holds the trimmed text fields and the untrimmed barangay id |
| BarangayProfile.SaveIsStable | barangay/js/profile.js:188-195 | saving the values just sent sends the same update again |
| BarangayProfile.DropdownFor | barangay/js/profile.js:115-128 | the placeholder, then one option per entry in order, with the entry's `baranggay_id` and `baranggay`, selected iff that id loosely equals the profile's |
| BarangayProfile.FallbackOptionsAreBlank | barangay/js/profile.js:93-125 | the fallback list's options have no value and no text, and with no profile loaded every one is flagged as selected |
| BarangayProfile.BarangayProfilePage.constructor | barangay/js/profile.js:3-4 | the module state at script load |
| BarangayProfile.BarangayProfilePage.PopulateBarangayDropdown | barangay/js/profile.js:115-128 | the loop leaves exactly the specified drop-down; the profile and list are unchanged |
| BarangayProfile.BarangayProfilePage.LoadUserProfile | barangay/js/profile.js:62-79 | a delivered profile replaces the state's profile; anything else leaves it |
| BarangayProfile.BarangayProfilePage.LoadBarangays | barangay/js/profile.js:82-102 | a delivered list is stored and drawn; a thrown request draws the fallback list; an unsuccessful answer changes nothing |
| UserProfile.GetBarangayName | user/js/profile.js:163-167 | null for a falsy id or when no entry matches; else the `baranggay` of the first entry whose `baranggay_id` loosely equals the id |
| UserProfile.LookupsAgree | user/js/profile.js:163-167 | on the server's list, for a listed truthy id, the resident's and the corrected official's lookup name the same barangay |
| UserProfile.DropdownFor | user/js/profile.js:170-183 | the placeholder, then one option per entry in order, selected iff a profile is loaded and its id loosely equals the entry's |
| UserProfile.NoProfileNoSelection | user/js/profile.js:178 | before a profile is loaded no option is selected |
| UserProfile.UpdatePayload | user/js/profile.js:244-271 | nothing is sent iff a trimmed name is empty; the body holds both trimmed names, the trimmed middle name iff non-empty, and the untrimmed barangay id iff non-empty |
| UserProfile.SaveIsStable | user/js/profile.js:244-271 | saving the values just sent sends the same body again |
| UserProfile.UserProfilePage.constructor | user/js/profile.js:3-4 | the module state at script load |
| UserProfile.UserProfilePage.PopulateBarangayDropdown | user/js/profile.js:170-183 | the loop leaves exactly the specified drop-down; nothing else changes |
| UserProfile.UserProfilePage.FetchUserProfile | user/js/profile.js:46-75 | a delivered profile replaces `userData`; anything else leaves it |
| UserProfile.UserProfilePage.FetchBarangays | user/js/profile.js:78-98 | a delivered list is stored and drawn; failures change nothing |
| UserProfile.UserProfilePage.OpenModal | user/js/profile.js:228-231 | the dialog opens and nothing else changes |
| UserProfile.UserProfilePage.SaveProfileChanges | user/js/profile.js:239-311 | the body sent is the specified one; a rejected form changes nothing; success replaces `userData` and closes the dialog; failure keeps both; the button is restored after any request |
| Report.Truncate | user/js/report.js:160-165 | the kept text is the first min(length, 500) characters of the input |
| Report.Check | user/js/report.js:223-262 | the first failing check in the order type, severity, location, trimmed description; none iff all pass |
| Report.ZeroCoordinateRejected | user/js/report.js:243 | a coordinate of exactly 0 is refused like a missing one |
| Report.BlankDescriptionRejected | user/js/report.js:253-254 | once the earlier checks pass, the description is refused iff it is all whitespace |
| Report.PhotoName | user/js/report.js:276-286 | the first chosen file's name when a photo is attached and a file is present, else the empty string |
| Report.ReportFor | user/js/report.js:270-287 | a sent report has non-zero coordinates, non-empty type and severity, the trimmed non-empty description and the photo rule's name |
| Report.ConfirmationMessage | user/js/report.js:300-306 | the default message, or one naming the barangay when the answer carries a truthy name |
| Report.ReportForm.constructor | user/js/report.js:5-9 | the module state at script load |
| Report.ReportForm.SelectType | user/js/report.js:140 | the selected type becomes the button's data value; nothing else changes |
| Report.ReportForm.SelectSeverity | user/js/report.js:153 | the selected severity becomes the button's data value; nothing else changes |
| Report.ReportForm.MoveMarker | user/js/report.js:59-76 | both coordinates are replaced; nothing else changes |
| Report.ReportForm.DescriptionInput | user/js/report.js:159-166 | the textarea keeps the truncated text, unchanged when short enough; the counter shows its length |
| Report.ReportForm.ChoosePhoto | user/js/report.js:173-185 | the input holds the chosen files; the photo counts as attached once a file is chosen, and an empty choice leaves the flag |
| Report.ReportForm.RemovePhoto | user/js/report.js:187-194 | the input is cleared and the flag reset, so no photo name would be sent |
| Report.ReportForm.Submit | user/js/report.js:219-323 | the refusal is the first failing check and changes nothing; otherwise the specified report is sent; the button stays disabled iff the request succeeds, and a success shows the confirmation |

## Left out

- The DOM, CSS classes and HTML templates are not modelled. A page class
  holds only the values its logic decides: lists, flags, drop-down options,
  the confirmation text.
- The network is not modelled. `fetch`, `apiRequest` and the response
  parsing become a `Response` input with three outcomes: thrown, unsuccessful
  and delivered. A delivered answer's `data` is assumed present.
- `localStorage` reads, `getHeaders`, `loadUserData` and logout are storage
  and session plumbing.
- Leaflet maps, `fitBounds`, SweetAlert dialogs, FileReader, timers, the
  mesh and online status indicators and the sidebar are foreign libraries
  or pure UI.
- Locale formatting (`toLocaleDateString`, `toLocaleString`) is not
  modelled. The month label of an incident is a function parameter, and
  dates are integers (milliseconds) or `None` when they do not parse.
- The incident detail modal (`showIncidentModal`) and the per-incident map
  are left out, except that `RenderCard` uses the resolution the detail
  view applies.
- `user/js/user.js` is not part of this model.
- JsText.Lower: case mapping covers ASCII letters only.
- Strings are sequences of characters, each counted as one UTF-16 unit:
  surrogate pairs are not modelled. This bears on every length, and so on
  Report.Truncate and Report.ReportForm.DescriptionInput, where 499
  ordinary characters and one emoji are 501 units, cut by the source at
  500, but 500 characters kept whole by the model.
- JsValue.LooseEq: numbers are integers. The model covers undefined, null,
  integers and strings of decimal digits, not floats, exponents or hex.
- Incidents.GetIncidentTypeInfo, Incidents.GetStatusInfo,
  Incidents.GetSeverityInfo, Home.GetStatusColor, Home.GetIncidentTypeIcon
  and Auth.RedirectToDashboard: a key inherited from `Object.prototype`
  (such as 'constructor') would be found by the source's object lookup;
  the model treats it as unknown.
- History.RenderThrows: the card template also throws on a null
  `description` or `incident_type`, a non-string `incident_id` and a null
  `severity_level`; the model gives those fields string values, so the
  only throw it captures is the missing status.
- History.FilterIncidents: with a search term, a null description, a null
  type, or a barangay object whose `baranggay_name` is null makes the
  source's `toLowerCase` throw; the model reads those fields as strings,
  and a missing barangay as no name.
- BarangayProfile.GetInitials: upper-casing covers ASCII letters only, so a
  letter whose upper case is longer (such as 'ß', which becomes "SS") gives
  one character where the source gives two.
- BarangayProfile.DropdownFor, BarangayProfile.FallbackOptionsAreBlank,
  BarangayProfile.NameMatchesSelectedOption, UserProfile.DropdownFor: the
  options carry the `selected` flags the source assigns. The browser keeps
  only the last flagged option selected in a single-choice list, and turns
  an undefined value into the text "undefined"; neither is modelled.
- Home.PlotSpec: coordinates are reals and `parseFloat` is reduced to "both
  parse, or not".
- Report.CoordinateSet: a NaN coordinate (falsy in JavaScript) is not
  modelled; coordinates are reals or null.
- Report.ReportForm.ChoosePhoto: the FileReader load is taken to finish at
  once, so the flag is set when the file is chosen.
- Report.ReportForm.Submit: the error text shown for a failed request is
  not modelled; the button and confirmation are. The browser does not
  submit the form while the button is disabled; the model does not gate
  the call on it and states the outcome of every call.
- UserProfile.UserProfilePage.FetchUserProfile: the barangay request it
  then makes is the separate `FetchBarangays` call.
- BarangayProfile.SaveProfile: the request and the page reload after it
  are not modelled; the validation and the payload are.

## Findings

| source | as written | input that shows it | evidently intended | confidence | as-written member | corrected member |
|---|---|---|---|---|---|---|
| user/js/history.js:348 | `getIncidentStatus(incident.status)` passes the status string where an incident is expected, so its `.status` and `.created_at` are undefined, and the date fallback yields 'resolved' | an incident with status 'pending' created now: its card gets `data-status="resolved"` and a 'Rate Response' button, while its badge reads PENDING; a null status makes the property access throw | `getIncidentStatus(incident)`, as the detail view does, so the card status, the chips and the rating button agree | not executed | History.RenderCardAsWritten, History.PendingCardOffersRating | History.RenderCard, History.CardAgreesWithChips |
| barangay/js/profile.js:162 | the lookup compares `b.id`, which the server's entries do not carry (they carry `baranggay_id`, as the drop-down at line 123 reads) | the list `[{baranggay_id: 1, baranggay: 'San Pablo'}]` with id 1 shows 'Barangay not set'; an unset id (undefined) matches the first entry, since `undefined == undefined` | match on `baranggay_id`, the key the drop-down and the resident's page use | not executed | BarangayProfile.GetBarangayNameAsWritten, BarangayProfile.ListedBarangayNotFound | BarangayProfile.GetBarangayName, BarangayProfile.NameMatchesSelectedOption |
