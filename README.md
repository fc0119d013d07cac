# SmartRide core rules, modelled in Dafny

SmartRide is a ride-sharing application. It has a React web client (admin, driver and passenger
dashboards, an emergency SOS button, toast notifications and an `ApiService` wrapper around `fetch`)
and a Spring back end with services for one-time passwords (OTP) sent by mail, SendGrid delivery,
emergency contacts, SOS alerts and admin login. This project models the rules these pieces apply.
Each model then states, as contracts and lemmas, what those rules guarantee.

The model, module by module:

- client helpers
  - `Wrappers`: `Option` and `Result`.
  - `Seqs`: filtering, mapping and subsequences.
  - `JsStrings`: JavaScript's `trim`, truthiness, `||` fallback, ASCII `toLowerCase`, `includes`, `split` and `join`.
  - `JsNumbers`: `parseInt`, `parseFloat` and `String(n)`.
- `Pagination`: the 10-rows-per-page slicing and the 5-button page window of the admin dashboard.
- `Toasts`: the toast list of `ToastContext.jsx`.
- `AdminDashboard`, `AdminDashboardNew`: the current and the older admin dashboards. Drivers are classified as verified, rejected or pending. The models cover the statistics, the filters, the pagination, the rejection dialog, and the older dashboard's two-state rule with its response normalisation.
- `DriverDashboard`: the post-ride checks, the fare lookup, the time-ago buckets, the recent-activity list and the tab switch.
- `PassengerDashboard`: the booking split, spend statistics, ride extraction and future filter, the seat selector, and booking.
- `ApiClient`, `ApiMethods`: `ApiService` in `api.js`.
  - Covered: the token store and auth header, the response envelope, and the request bodies.
  - `ApiMethods` lists which method names the class defines.
- `SOSButton`: the SOS modal, its request payload and its notification summary.
- `OtpEmail`: phone normalisation, code generation, the hourly limit, issuing and single-use verification over an OTP table.
- `SendGrid`: the key guard, the HTML-to-JSON escape chain against section 7 of RFC 8259, and the 2xx check of section 15.3 of RFC 9110.
- `EmergencyAlertEntity`, `EmergencyContactEntity`: the two entities with their defaults and persistence hooks.
- `EmergencyContactService`, `EmergencySOSService`: the contact table with ownership checks, the SOS trigger with its notification loop, and the alert lifecycle.
- `AdminService`: the admin login decision and the profile lookup.
- `controllers.dfy`: the three controllers.
  - `ControllerSupport`: the Bearer header of section 2.1 of RFC 6750.
  - `EmergencySOSController`, `EmergencyContactController`, `AdminController`: the controllers' error envelopes.

**How state is modelled**
- Client components whose state React updates are classes.
  - Each handler is a method whose `ensures` gives the whole new state.
  - A server reply or a browser result is a parameter of the handler.
- Server services are classes over in-memory tables (`seq`s of rows).
  - Each service method is proved equal to an outcome function of the old table.
  - The properties are lemmas about those functions.
- `@Transactional` rollback is modelled explicitly: a failing call leaves the table as it was.
- Times are integer parameters: milliseconds on the client, seconds on the server.

## Model

| member | source | states |
|---|---|---|
| JsStrings.LeadingWhitespace | client/src/components/DriverDashboard.jsx:208-212 | the count of leading whitespace never exceeds the length |
| JsStrings.TrailingWhitespace | client/src/components/DriverDashboard.jsx:208-212 | the count of trailing whitespace never exceeds the length |
| JsStrings.LeadingWhitespaceSpec | client/src/components/DriverDashboard.jsx:208-212 | every counted leading code point is whitespace, and the next one is not |
| JsStrings.TrailingWhitespaceSpec | client/src/components/DriverDashboard.jsx:208-212 | every counted trailing code point is whitespace, and the one before is not |
| JsStrings.TrimStartPlain | client/src/components/DriverDashboard.jsx:208-212 | a string that does not start with whitespace is unchanged by the start trim |
| JsStrings.TrimEndPlain | client/src/components/DriverDashboard.jsx:208-212 | a string that does not end with whitespace is unchanged by the end trim |
| JsStrings.TrimNoWhitespace | client/src/components/DriverDashboard.jsx:208-212 | a string without whitespace is its own trim |
| JsStrings.TrimEnds | client/src/components/PassengerDashboard.jsx:162-175 | a trimmed string is empty or neither starts nor ends with whitespace |
| JsStrings.TrimIdempotent | client/src/components/PassengerDashboard.jsx:162-175 | trimming twice is trimming once |
| JsStrings.BlankIffAllWhitespace | client/src/components/AdminDashboard.jsx:315 | `!s.trim()` holds exactly when every code point is whitespace |
| JsStrings.OrElse | client/src/services/api.js:306-321 | `o \|\| fallback` gives the value when it is a non-empty string, else the fallback |
| JsStrings.Lower | client/src/components/AdminDashboard.jsx:396-402 | the ASCII stand-in for `toLowerCase`: A to Z fold to a to z one character at a time and every other character is kept, so the model's length is kept |
| JsStrings.LowerConcat | client/src/components/AdminDashboard.jsx:396-402 | case folding distributes over concatenation |
| JsStrings.ContainsEmpty | client/src/components/AdminDashboard.jsx:396-399 | the empty search string is contained in every string |
| JsStrings.ContainsInfix | client/src/components/AdminDashboard.jsx:396-399 | a string contains every infix of it |
| JsStrings.Split | client/src/services/api.js:111-113 | a split yields at least one piece and no piece holds the separator |
| JsStrings.JoinSplit | client/src/services/api.js:111-113 | joining the pieces of a split with the separator gives back the string |
| JsStrings.SplitWithoutSeparator | client/src/services/api.js:111-113 | a string without the separator splits into itself alone |
| JsStrings.SplitFirst | client/src/services/api.js:111-113 | the first piece is everything before the first separator, and the rest rejoins to everything after it |
| JsNumbers.LeadingDigits | client/src/components/DriverDashboard.jsx:220-247 | the digit prefix that `parseInt` reads is no longer than the string |
| JsNumbers.Pow10 | client/src/components/DriverDashboard.jsx:220-247 | powers of ten are positive |
| JsNumbers.HexValue | client/src/components/DriverDashboard.jsx:220-247 | a hexadecimal digit is worth less than 16 |
| JsNumbers.LeadingHexDigits | client/src/components/DriverDashboard.jsx:220-247 | the hexadecimal digit prefix read after `0x` is no longer than the string |
| JsNumbers.UnsignedInt | client/src/components/DriverDashboard.jsx:220-247 | the unsigned body has no number exactly when no hexadecimal digit follows a `0x`/`0X` prefix, or, without that prefix, no decimal digit starts it |
| JsNumbers.ParseInt | client/src/components/DriverDashboard.jsx:220-247 | `parseInt` is NaN exactly when no digit follows the optional sign; after a `0x` or `0X` prefix the digits counted are hexadecimal |
| JsNumbers.UnsignedFloat | client/src/components/DriverDashboard.jsx:223-241 | the unsigned body has no number exactly when it starts with neither a digit nor a point followed by a digit |
| JsNumbers.ParseFloat | client/src/components/DriverDashboard.jsx:223-241 | `parseFloat` is NaN exactly when, after the optional sign, neither a digit nor a point followed by a digit comes first |
| JsNumbers.LeadingDigitsStop | client/src/components/DriverDashboard.jsx:223-241 | the digit prefix of digits followed by a non-digit is exactly those digits |
| JsNumbers.SplitSignPlain | client/src/components/DriverDashboard.jsx:220-247 | a string starting with neither whitespace nor a sign is read unsigned, as it stands |
| JsNumbers.SplitSignMinus | client/src/components/DriverDashboard.jsx:220-247 | a leading minus is a negative sign and the rest is the body |
| JsNumbers.UnsignedHex | client/src/components/DriverDashboard.jsx:220-247 | `0x` or `0X` followed only by hexadecimal digits reads as their base-16 value |
| JsNumbers.ParseIntOfSplit | client/src/components/DriverDashboard.jsx:220-247 | `parseInt` is the body's number, negated when the sign was a minus |
| JsNumbers.ParseIntOfMinus | client/src/components/DriverDashboard.jsx:220-247 | a leading minus negates the number the rest reads as |
| JsNumbers.ParseIntOfHex | client/src/components/DriverDashboard.jsx:220-247 | `parseInt("0x" + ds)` is the base-16 value of the hexadecimal digits ds |
| JsNumbers.ParseIntOfHexPrefix | client/src/components/DriverDashboard.jsx:220-247 | `parseInt("0x")` alone is NaN |
| JsNumbers.HexSamples | client/src/components/DriverDashboard.jsx:220-247 | proof step for ParseIntHex: "1A" is 26 and "10" is 16 in base 16 |
| JsNumbers.ParseIntHex | client/src/components/DriverDashboard.jsx:220-247 | `parseInt("0x1A")` is 26, `parseInt("-0X10")` is -16 and `parseInt("0x")` is NaN |
| JsNumbers.UnsignedExponent | client/src/components/DriverDashboard.jsx:223-241 | digits followed by an exponent part read as the digits scaled by that exponent |
| JsNumbers.ExponentOf | client/src/components/DriverDashboard.jsx:223-241 | `e` followed by digits is that power of ten, `e-` followed by digits its negative |
| JsNumbers.ParseFloatOfExponent | client/src/components/DriverDashboard.jsx:223-241 | `parseFloat(ds + "e" + es)` is ds times ten to the es, and with `e-` divided by it |
| JsNumbers.DecimalSamples | client/src/components/DriverDashboard.jsx:223-241 | proof step for the exponent examples: the decimal values of the sample digit strings and two powers of ten |
| JsNumbers.ScaleSamples | client/src/components/DriverDashboard.jsx:223-241 | proof step for the exponent examples: 25 scaled by ten to the -2 is 0.25 and 1 scaled by ten to the 3 is 1000 |
| JsNumbers.ParseFloatPositiveExponent | client/src/components/DriverDashboard.jsx:223-241 | `parseFloat("1e3")` is 1000, so a price typed as "1e3" passes the range checks as 1000 |
| JsNumbers.ParseFloatNegativeExponent | client/src/components/DriverDashboard.jsx:223-241 | `parseFloat("25e-2")` is 0.25 |
| JsNumbers.NatToString | client/src/components/DriverDashboard.jsx:296-302 | `String(n)` is a non-empty string of digits |
| JsNumbers.NatToStringValue | client/src/components/DriverDashboard.jsx:296-302 | the digits of `String(n)` have the value n |
| JsNumbers.AllDigitsLeading | client/src/components/DriverDashboard.jsx:220-247 | in a string made only of digits the digit prefix is the whole string |
| JsNumbers.NatToStringUnsigned | client/src/components/DriverDashboard.jsx:296-302 | `String(n)` of a whole number carries no sign, so the parsers read it unsigned |
| JsNumbers.ParseIntOfNatToString | client/src/components/DriverDashboard.jsx:244 | `parseInt(String(n))` is n |
| JsNumbers.ParseFloatOfNatToString | client/src/components/DriverDashboard.jsx:223-235 | `parseFloat(String(n))` is n, so a filled-in fare reads back as itself |
| JsNumbers.ParseEmpty | client/src/components/DriverDashboard.jsx:220-223 | the empty string is NaN for both parsers |
| JsNumbers.IntToString | client/src/components/DriverDashboard.jsx:182-198 | `String(i)` of a whole number: a minus before the digits of a negative one; its value is stated by NatToStringValue and its decimal round trip by JavaNumbers.ParseLongOfToString |
| JavaNumbers.ParseLong | Ride-Sharing/src/main/java/com/ridesharing/controller/EmergencySOSController.java:83 | `Long.parseLong` accepts only an optional sign and one or more digits within the 64-bit range; anything else fails with the `For input string` message |
| JavaNumbers.ParseLongOfToString | Ride-Sharing/src/main/java/com/ridesharing/controller/EmergencySOSController.java:83 | every 64-bit value reads back from its decimal text |
| JavaNumbers.ParseLongRefusesName | Ride-Sharing/src/main/java/com/ridesharing/controller/EmergencySOSController.java:83 | a name such as an e-mail address is refused with the `For input string` message |
| JavaNumbers.JavaDiv | Ride-Sharing/src/main/java/com/ridesharing/service/AdminService.java:51-52 | the sign of the truncating quotient follows the operands' signs |
| JavaNumbers.JavaDivNonNegative | Ride-Sharing/src/main/java/com/ridesharing/service/AdminService.java:51-52 | for a non-negative dividend the quotient is the floor quotient and brackets the dividend |
| JavaNumbers.JavaDivTruncates | Ride-Sharing/src/main/java/com/ridesharing/service/AdminService.java:51-52 | Java division rounds toward zero: -1500/1000 is -1, not -2 |
| Pagination.Slice | client/src/components/AdminDashboard.jsx:421-441 | `slice(start, end)` with in-range bounds is exactly the rows from start to end |
| Pagination.TotalPages | client/src/components/AdminDashboard.jsx:421-441 | `ceil(n/10)`: the pages hold all n rows, and one page fewer would not |
| Pagination.PageMatchesLabels | client/src/components/AdminDashboard.jsx:1140-1141 | page p holds exactly the rows numbered startItem to endItem of the "Showing" label, and endItem - startItem + 1 is its size |
| Pagination.PageSizes | client/src/components/AdminDashboard.jsx:421-441 | every page holds at most 10 rows, every page before the last holds exactly 10, and a page past the end is empty |
| Pagination.PagesFromCover | client/src/components/AdminDashboard.jsx:421-441 | the pages from p onwards, concatenated, are exactly the rows from (p-1)·10 on |
| Pagination.PagesCoverAllRows | client/src/components/AdminDashboard.jsx:421-441 | pages 1 to totalPages, concatenated, give back the whole list |
| Pagination.GetPageNumbers | client/src/components/AdminDashboard.jsx:1143-1159 | the buttons are the consecutive page numbers of the window, ascending |
| Pagination.WindowBounds | client/src/components/AdminDashboard.jsx:1143-1159 | for a current page in range the window lies in 1..totalPages, contains the current page and has min(5, totalPages) buttons |
| Pagination.ArrowsAtEnds | client/src/components/AdminDashboard.jsx:1161-1211 | previous is disabled on page 1 and next on the last page; the bar is drawn exactly when there are at least 2 pages |
| Pagination.Page | client/src/components/AdminDashboard.jsx:421-441 | `getPaginatedUsers`/`getPaginatedDrivers`: the ten rows of a page; see PageSizes, PagesCoverAllRows |
| Pagination.StartItem | client/src/components/AdminDashboard.jsx:1140-1141 | the label's first row number; see PageMatchesLabels |
| Pagination.EndItem | client/src/components/AdminDashboard.jsx:1140-1141 | the label's last row number, capped by the total; see PageMatchesLabels |
| Pagination.Window | client/src/components/AdminDashboard.jsx:1143-1159 | the first and last page button of `getPageNumbers`; see WindowBounds |
| Toasts.TypeString | client/src/components/ToastContext.jsx:16-20 | success, error and info pass their own type string, and the three strings differ |
| Toasts.DurationOf | client/src/components/ToastContext.jsx:8 | a missing duration is 4000 ms; a given one is kept |
| Toasts.Pushed | client/src/components/ToastContext.jsx:10 | `push` appends one toast at the end and keeps the list before it |
| Toasts.Removed | client/src/components/ToastContext.jsx:11-13 | the timer drops exactly the toasts with that id and keeps every copy of the others, in order |
| Toasts.Notify | client/src/components/ToastContext.jsx:43-52 | outside a provider a call changes nothing; inside one it pushes a toast of the call's type |
| Toasts.RemovedFresh | client/src/components/ToastContext.jsx:11-13 | removing an id no toast carries leaves the list unchanged |
| Toasts.PushThenRemove | client/src/components/ToastContext.jsx:8-14 | pushing a toast with a fresh id and then removing that id restores the list |
| Toasts.RemoveOtherKeeps | client/src/components/ToastContext.jsx:8-14 | removing another toast keeps a pushed toast, still last |
| AdminDashboard.FilteredDrivers | client/src/components/AdminDashboard.jsx:408-418 | the kept drivers are exactly those matching the status filter, each with every copy it has in the list, in their original order |
| AdminDashboard.FilteredUsers | client/src/components/AdminDashboard.jsx:394-406 | the kept users are exactly those matching both the search and the type filter, each with every copy it has in the list, in their original order |
| AdminDashboard.StatusMeaning | client/src/components/AdminDashboard.jsx:348-375 | verified iff `isVerified === true`; rejected iff `isVerified === false` with a non-empty reason; pending otherwise |
| AdminDashboard.StatsMatchFilters | client/src/components/AdminDashboard.jsx:378-391 | pending + verified + rejected = total drivers, and the two cards count exactly what the pending and verified filters show |
| AdminDashboard.AllPass | client/src/components/AdminDashboard.jsx:408-418 | the filter 'all' keeps the whole list |
| AdminDashboard.UnknownStatusFilterShowsNone | client/src/components/AdminDashboard.jsx:408-418 | a status value outside the four options shows no driver |
| AdminDashboard.BadgeAgreesWithFilter | client/src/components/AdminDashboard.jsx:911-924 | the badge reads pending, verified or rejected exactly when the driver is listed under that filter |
| AdminDashboard.ActionsGating | client/src/components/AdminDashboard.jsx:928-951 | Verify and Reject are offered exactly when `isVerified` is not true, so a rejected driver can be re-verified; the reason line appears exactly for rejected drivers |
| AdminDashboard.EmptySearch | client/src/components/AdminDashboard.jsx:394-406 | an empty search matches a user exactly when one of the four searched fields is present |
| AdminDashboard.TypeFilterFoldsCase | client/src/components/AdminDashboard.jsx:400-403 | the type filter ignores ASCII case, and a user without a role is shown only under 'all' |
| AdminDashboard.SearchFindsFirstName | client/src/components/AdminDashboard.jsx:396 | a fragment of the first name finds the user in any ASCII case |
| AdminDashboard.VerificationStatus | client/src/components/AdminDashboard.jsx:348-375 | `getVerificationStatus`; see StatusMeaning |
| AdminDashboard.UpdateStats | client/src/components/AdminDashboard.jsx:378-391 | `updateStats`; see StatsMatchFilters |
| AdminDashboard.BadgeLabel | client/src/components/AdminDashboard.jsx:911-924 | the driver card's badge; see BadgeAgreesWithFilter |
| AdminDashboard.Dashboard.constructor | client/src/components/AdminDashboard.jsx:65-89 | the overview tab, empty search, 'all' filters, page 1 of both lists, a closed dialog with no reason and no target, and empty lists |
| AdminDashboard.Dashboard.SwitchTab | client/src/components/AdminDashboard.jsx:131-134 | the chosen tab is shown, and the switch counts exactly when it differs from the shown one |
| AdminDashboard.Dashboard.SetUserSearch | client/src/components/AdminDashboard.jsx:444-450 | the search text is set, and the user page resets to 1 exactly when the text changed |
| AdminDashboard.Dashboard.SetUserTypeFilter | client/src/components/AdminDashboard.jsx:444-450 | the type is set, and the user page resets to 1 exactly when it changed |
| AdminDashboard.Dashboard.SetDriverStatusFilter | client/src/components/AdminDashboard.jsx:444-450 | the status is set, and the driver page resets to 1 exactly when it changed |
| AdminDashboard.Dashboard.OpenRejectModal | client/src/components/AdminDashboard.jsx:940-942 | the dialog opens for `driverDetailId \|\| id` with an empty reason |
| AdminDashboard.Dashboard.SetRejectionReason | client/src/components/AdminDashboard.jsx:1090 | only the reason changes |
| AdminDashboard.Dashboard.SubmitRejection | client/src/components/AdminDashboard.jsx:314-341 | a blank reason gives an error toast, sends nothing and changes nothing; a SUCCESS reply gives the success toast and closes the dialog; any other reply or a thrown error gives the error toast with the message appended (`undefined` when absent) |
| AdminDashboardNew.FilteredDrivers | client/src/components/AdminDashboard_New.jsx:195-203 | the kept drivers are exactly those matching the two-state filter, each with every copy it has in the list, in their original order |
| AdminDashboardNew.NormaliseCases | client/src/components/AdminDashboard_New.jsx:67-89 | a SUCCESS envelope yields its data if that is an array and no rows otherwise, with no error; a bare array is used as is; anything else is an empty list with the handler's error |
| AdminDashboardNew.ObjectDataIsSilentlyEmpty | client/src/components/AdminDashboard_New.jsx:74-85 | a SUCCESS envelope whose data is an object yields no rows and no error |
| AdminDashboardNew.TwoStatePartition | client/src/components/AdminDashboard_New.jsx:195-203 | 'verified' and 'pending' split the list between them, each keeping the order |
| AdminDashboardNew.AllPass | client/src/components/AdminDashboard_New.jsx:195-203 | 'all' keeps the whole list |
| AdminDashboardNew.NoRejectedOption | client/src/components/AdminDashboard_New.jsx:421-425 | the value 'rejected' shows no driver at all |
| AdminDashboardNew.BadgeAndActions | client/src/components/AdminDashboard_New.jsx:485-514 | the badge reads Verified exactly for the 'verified' filter, and the buttons appear exactly for the rest |
| AdminDashboardNew.RejectedShowsAsPending | client/src/components/AdminDashboard_New.jsx:485-514 | on a rejected driver the current dashboard says Rejected while the older one says Pending and offers approve and reject again |
| AdminDashboardNew.DisagreementWitness | client/src/components/AdminDashboard_New.jsx:485-491 | a concrete rejected driver on which the two dashboards disagree |
| AdminDashboardNew.AgreeOnVerified | client/src/components/AdminDashboard_New.jsx:195-203 | when `verified` mirrors `isVerified` both dashboards agree on who is verified, and the older pending list is the current pending and rejected drivers together |
| AdminDashboardNew.Normalise | client/src/components/AdminDashboard_New.jsx:67-89 | the reply handling shared by the fetch handlers; see NormaliseCases, ObjectDataIsSilentlyEmpty |
| AdminDashboardNew.BadgeLabel | client/src/components/AdminDashboard_New.jsx:485-491 | the two-word badge; see BadgeAndActions, RejectedShowsAsPending |
| AdminDashboardNew.Dashboard.constructor | client/src/components/AdminDashboard_New.jsx:9-26 | empty lists, zero overview numbers and no error |
| AdminDashboardNew.Dashboard.FetchDashboardData | client/src/components/AdminDashboard_New.jsx:48-64 | the overview becomes the fixed numbers 1234, 456, 23 and 125000 |
| AdminDashboardNew.Dashboard.FetchAllUsers | client/src/components/AdminDashboard_New.jsx:67-89 | the user list and the error become the normalised reply |
| AdminDashboardNew.Dashboard.FetchAllDrivers | client/src/components/AdminDashboard_New.jsx:110-132 | the driver list and the error become the normalised reply |
| AdminDashboardNew.Dashboard.FetchPendingDrivers | client/src/components/AdminDashboard_New.jsx:134-156 | the pending list and the error become the normalised reply |
| DriverDashboard.AcceptedForms | client/src/components/DriverDashboard.jsx:205-247 | a form passes exactly when both locations are not blank, date and time are filled, the departure is in the future, seats and price are filled, and where they read as numbers the seats lie in 1..8 and the price in 10..10000 |
| DriverDashboard.NonNumericPriceSlipsThrough | client/src/components/DriverDashboard.jsx:223-241 | a price that is not a number passes every price check, because NaN comparisons are false |
| DriverDashboard.WhitespaceLocationRefused | client/src/components/DriverDashboard.jsx:205-212 | whitespace-only locations are refused by the post checks although they pass the fare lookup's untrimmed guard |
| DriverDashboard.TimeAgoBuckets | client/src/components/DriverDashboard.jsx:182-198 | under an hour counts minutes, under a day hours, the second day is Yesterday, days 2 to 6 count days, a week or more prints the date |
| DriverDashboard.TimeAgoSingular | client/src/components/DriverDashboard.jsx:182-198 | the unit word is singular exactly for one minute or one hour |
| DriverDashboard.AssembleActivities | client/src/components/DriverDashboard.jsx:126-180 | a failed bookings request gives an empty list; otherwise the list is the first three bookings and then the first two completed payments, in that order, at most five |
| DriverDashboard.ActivitiesFitTheCap | client/src/components/DriverDashboard.jsx:173-178 | at most three booking and two payment entries exist, so the cap of five never drops one |
| DriverDashboard.BookingEntries | client/src/components/DriverDashboard.jsx:137-154 | the booking entries are the first three bookings, titled by their status |
| DriverDashboard.ActivitiesEmptyAsWritten | client/src/components/DriverDashboard.jsx:129-133 | as written, the recent-activity list is empty whatever the two requests would return |
| DriverDashboard.FareRuleBounds | client/src/components/DriverDashboard.jsx:900-902 | the documented fare (50 plus 3 per km, at most 5000) lies between 50 and 5000 and grows with the distance |
| DriverDashboard.FilledFarePassesPriceChecks | client/src/components/DriverDashboard.jsx:223-241 | a price filled in from a documented fare passes the three price checks |
| DriverDashboard.ValidatePostRide | client/src/components/DriverDashboard.jsx:205-247 | the checks of `handlePostRideSubmit` in source order; see AcceptedForms, NonNumericPriceSlipsThrough, WhitespaceLocationRefused |
| DriverDashboard.FormatTimeAgo | client/src/components/DriverDashboard.jsx:182-198 | `formatTimeAgo`'s bucket; see TimeAgoBuckets |
| DriverDashboard.TimeAgoText | client/src/components/DriverDashboard.jsx:182-198 | the text of each bucket; see TimeAgoSingular |
| DriverDashboard.Dashboard.constructor | client/src/components/DriverDashboard.jsx:10-38 | the overview tab, an empty form, no fare, no error and no activities |
| DriverDashboard.Dashboard.SwitchTab | client/src/components/DriverDashboard.jsx:59-67 | the chosen tab is shown; the switch counts exactly when it differs, and it refreshes stats and activities exactly when it switches a signed-in driver to the overview |
| DriverDashboard.Dashboard.SubmitPostRide | client/src/components/DriverDashboard.jsx:205-262 | the first failing check's message with nothing posted or changed; a successful post shows the success toast "Ride posted successfully!", resets the form and the fare and shows My Rides; a failed one shows its error and no toast |
| DriverDashboard.Dashboard.CalculateFare | client/src/components/DriverDashboard.jsx:285-302 | with a location missing only the error is set and no request is made; a SUCCESS reply fills the price with the fare's decimal text |
| DriverDashboard.Dashboard.FetchRecentActivities | client/src/components/DriverDashboard.jsx:126-180 | a failed bookings request empties the list; otherwise it becomes the first three bookings followed by the first two completed payments |
| PassengerDashboard.FutureRides | client/src/components/PassengerDashboard.jsx:95-99 | the shown rides are exactly the active rides leaving after now, each with every copy it has in the list, in order |
| PassengerDashboard.SeatOptions | client/src/components/PassengerDashboard.jsx:351-358 | the options are 1 up to min(4, free seats), ascending |
| PassengerDashboard.SplitIsDisjoint | client/src/components/PassengerDashboard.jsx:37-47 | active bookings and history share no booking, other statuses appear in neither, and both keep the server's order |
| PassengerDashboard.SumSplit | client/src/components/PassengerDashboard.jsx:388-395 | the card total is the completed spend plus the rest of the history |
| PassengerDashboard.SumNonNegative | client/src/components/PassengerDashboard.jsx:388-395 | sums of non-negative amounts are non-negative |
| PassengerDashboard.CardTotalAtLeastStats | client/src/components/PassengerDashboard.jsx:425 | with non-negative amounts the Total Spent card is at least the completed spend |
| PassengerDashboard.CancelledCountsOnlyOnCard | client/src/components/PassengerDashboard.jsx:388-425 | a cancelled booking with an amount raises the card total but not the statistic |
| PassengerDashboard.ExtractionOrder | client/src/components/PassengerDashboard.jsx:76-90 | the ride list comes from the paged SUCCESS content, else a bare array, else an array in data, else nothing |
| PassengerDashboard.CardTotalDefault | client/src/components/PassengerDashboard.jsx:221-222 | a card's total is the price per seat times the chosen seats, one seat when none was chosen |
| PassengerDashboard.SeatOptionBounds | client/src/components/PassengerDashboard.jsx:351-358 | every option lies between 1 and both 4 and the free seats; a full ride offers none |
| PassengerDashboard.PickupSentTrimmed | client/src/components/PassengerDashboard.jsx:169-175 | an accepted pickup is sent trimmed and is never replaced by the client's default |
| PassengerDashboard.PassengerNameFallback | client/src/components/PassengerDashboard.jsx:169-175 | the passenger name falls back from first name to name to "Passenger" |
| PassengerDashboard.SplitBookings | client/src/components/PassengerDashboard.jsx:37-47 | the active/history split of `fetchBookings`; see SplitIsDisjoint |
| PassengerDashboard.StatsOf | client/src/components/PassengerDashboard.jsx:388-395 | the `stats` object; see SumSplit, CardTotalAtLeastStats |
| PassengerDashboard.CardTotalSpent | client/src/components/PassengerDashboard.jsx:425 | the Total Spent card; see CardTotalAtLeastStats, CancelledCountsOnlyOnCard |
| PassengerDashboard.ExtractRides | client/src/components/PassengerDashboard.jsx:76-90 | the ride list of a reply; see ExtractionOrder |
| PassengerDashboard.BookingRequest | client/src/components/PassengerDashboard.jsx:169-175 | the booking body of `handleBookRide`; see PickupSentTrimmed, PassengerNameFallback |
| PassengerDashboard.Dashboard.constructor | client/src/components/PassengerDashboard.jsx:13-19 | no rides, bookings or history, no seat choice and no error |
| PassengerDashboard.Dashboard.FetchBookings | client/src/components/PassengerDashboard.jsx:26-57 | a SUCCESS reply with data replaces both lists by its split; other replies keep them; a throw sets "Failed to load bookings" |
| PassengerDashboard.Dashboard.LoadRides | client/src/components/PassengerDashboard.jsx:61-152 | the ride list becomes the future rides of the extracted list, or a throw sets the handler's failure message |
| PassengerDashboard.Dashboard.SelectSeats | client/src/components/PassengerDashboard.jsx:351-354 | only that ride's seat choice changes |
| PassengerDashboard.Dashboard.BookRide | client/src/components/PassengerDashboard.jsx:155-194 | a missing or blank pickup shows the alert and sends nothing; otherwise the trimmed request is sent, success resets that ride's choice, and a failure shows its message |
| ApiClient.LocalStorage.constructor | client/src/services/api.js:6-8 | the store starts with the given entries |
| ApiClient.LocalStorage.GetItem | client/src/services/api.js:6-8 | null exactly for a missing key, else the stored value |
| ApiClient.LocalStorage.SetItem | client/src/services/api.js:11-18 | that key now holds the value; nothing else changes |
| ApiClient.LocalStorage.RemoveItem | client/src/services/api.js:11-18 | that key is gone; nothing else changes |
| ApiClient.AuthHeaders | client/src/services/api.js:21-29 | Content-Type is always JSON; Authorization is present exactly for a truthy token and is "Bearer " followed by it |
| ApiClient.AuthHeaderShape | client/src/services/api.js:21-29 | the client's header is accepted by the server's Bearer extraction and yields the token unchanged |
| ApiClient.NoTokenNoAuthorization | client/src/services/api.js:21-29 | without a truthy token only the content type is sent |
| ApiClient.TextEnvelope | client/src/services/api.js:62-68 | a text reply becomes a body whose message is the text and whose status is SUCCESS for an ok reply and ERROR otherwise, with no other field |
| ApiClient.TextRepliesAndFailures | client/src/services/api.js:54-76 | a non-JSON reply settles to the text envelope exactly when the status is ok, and every status that is not ok fails the call |
| ApiClient.ApiService.constructor | client/src/services/api.js:6-8 | the service starts with the token saved in storage |
| ApiClient.ApiService.SetToken | client/src/services/api.js:11-18 | a truthy token is kept and saved; any other value clears the saved one |
| ApiClient.ApiService.ApiCall | client/src/services/api.js:32-84 | the token is re-read from storage, the request carries its auth headers, and the result is the reply's outcome |
| ApiClient.NameSplitAtFirstSpace | client/src/services/api.js:109-121 | a name with a space splits at the first space, and the two halves rejoin around it |
| ApiClient.NameWithoutSpace | client/src/services/api.js:111-113 | a name with no space is all first name with an empty last name |
| ApiClient.RoleMapping | client/src/services/api.js:121 | only the user type 'passenger' registers as USER; every other type registers as DRIVER |
| ApiClient.DepartureString | client/src/services/api.js:211-226 | the departure sent is the date, "T", the time and ":00" |
| ApiClient.SearchBodyFallbacks | client/src/services/api.js:237-251 | the search body prefers `from` over `source` and `to` over `destination`, and sends a date at midnight only when one is given |
| ApiClient.LastDefinitionWins | client/src/services/api.js:181-189 | in a class body the last definition of a name is the one kept |
| ApiClient.DuplicatesTargetAdminEndpoints | client/src/services/api.js:400-414 | `getAllUsers` and `deleteUser` resolve to their later admin endpoints |
| ApiMethods.NoGenericVerb | client/src/services/api.js:5-500 | no listed method name is one of the four missing names |
| ApiMethods.MissingNames | client/src/services/api.js:5-500 | none of the seven groups of method names holds `get`, `post`, `delete` or `getAllDriversWithRatings` |
| ApiMethods.GenericVerbsUndefined | client/src/services/api.js:5-500 | the class defines no `get`, `post`, `delete` or `getAllDriversWithRatings`, but does define the booking and ride calls the handlers use |
| ApiClient.ApiService.GetAuthHeaders | client/src/services/api.js:21-29 | `getAuthHeaders` on the current token; see AuthHeaderShape, NoTokenNoAuthorization |
| ApiClient.CallOutcome | client/src/services/api.js:54-84 | what `apiCall` returns or throws for a reply; see TextRepliesAndFailures |
| ApiClient.SplitName | client/src/services/api.js:111-113 | the name split of `register`; see NameSplitAtFirstSpace, NameWithoutSpace |
| ApiClient.RegistrationBody | client/src/services/api.js:109-131 | the body `register` sends; see RoleMapping, NameSplitAtFirstSpace |
| ApiClient.PostRideBody | client/src/services/api.js:211-226 | the body `postRide` sends; see DepartureString |
| ApiClient.SearchBodyOf | client/src/services/api.js:237-251 | the body `searchRides` sends; see SearchBodyFallbacks |
| ApiClient.BookRideBody | client/src/services/api.js:306-321 | the body `bookRide` sends, with its own fallbacks; see PassengerNameFallback |
| SOSButton.BuildSummary | client/src/components/EmergencySOSButton.jsx:92-98 | pushing the flagged channels and joining them gives the summary text: the flagged channels joined with commas, "Email" when none is flagged |
| SOSButton.LocationFallback | client/src/components/EmergencySOSButton.jsx:67-76 | with nothing cached and a failed lookup the request carries latitude 0 and longitude 0 |
| SOSButton.PayloadDefaults | client/src/components/EmergencySOSButton.jsx:78-84 | only an empty message takes the default text; a missing or zero ride id is sent as null |
| SOSButton.SuccessIffAlertTriggered | client/src/components/EmergencySOSButton.jsx:88-107 | a trigger succeeds exactly when the server answers status ALERT_TRIGGERED |
| SOSButton.NotificationOrder | client/src/components/EmergencySOSButton.jsx:92-98 | the listed channels are exactly the flagged ones, in the order Email, SMS, Voice Call |
| SOSButton.JoinTwo | client/src/components/EmergencySOSButton.jsx:92-98 | joining two channels puts the separator between them |
| SOSButton.SummaryExamples | client/src/components/EmergencySOSButton.jsx:92-98 | no flag reports "Email", as does the e-mail flag alone; SMS and call report "SMS, Voice Call" |
| SOSButton.SosNeverSentAsWritten | client/src/components/EmergencySOSButton.jsx:86 | as written the post is never made, so every trigger ends with the failure toast |
| SOSButton.Button.constructor | client/src/components/EmergencySOSButton.jsx:15-21 | the modal is closed, nothing is loading or triggered, no location is known, the message is empty and the type is SOS |
| SOSButton.Button.Open | client/src/components/EmergencySOSButton.jsx:50-59 | the modal opens, and nothing else changes |
| SOSButton.Button.LocationArrived | client/src/components/EmergencySOSButton.jsx:50-59 | a found location is kept; a failed lookup only warns and keeps the old location |
| SOSButton.Button.SetMessage | client/src/components/EmergencySOSButton.jsx:15-21 | only the message changes |
| SOSButton.Button.Close | client/src/components/EmergencySOSButton.jsx:136-140 | the modal closes, the flags reset and the message clears |
| SOSButton.Button.ResolveLocation | client/src/components/EmergencySOSButton.jsx:66-76 | the cached location is used as is; otherwise a found location is used and cached; otherwise (0, 0) is used with the "Using default" warning |
| SOSButton.Button.ApplyReply | client/src/components/EmergencySOSButton.jsx:86-106 | ALERT_TRIGGERED sets the sent flag and the tracking link and gives the channel summary; any other reply, or a throw, leaves both unchanged and gives its failure toast |
| SOSButton.Button.TriggerSOS | client/src/components/EmergencySOSButton.jsx:61-110 | the cached, looked-up or default location goes into the request; ALERT_TRIGGERED gives the summary toast and the sent state, anything else the failure toast |
| SOSButton.ChooseLocation | client/src/components/EmergencySOSButton.jsx:66-76 | the cached location, else the lookup, else (0, 0); see LocationFallback |
| SOSButton.RequestOf | client/src/components/EmergencySOSButton.jsx:78-84 | the SOS payload; see PayloadDefaults |
| SOSButton.SummaryText | client/src/components/EmergencySOSButton.jsx:92-98 | the notification summary; see BuildSummary, NotificationOrder, SummaryExamples |
| SOSButton.ReplyToast | client/src/components/EmergencySOSButton.jsx:88-107 | the toast that closes a trigger; see SuccessIffAlertTriggered |
| SOSButton.Button.SendDisabled | client/src/components/EmergencySOSButton.jsx:204-222 | the `disabled` test of both send buttons: a request is running or no location is known yet. The constructor ensures both start disabled, LocationArrived that a found location leaves them disabled only while a request runs, and TriggerSOS that they stay disabled afterwards exactly when neither a cached nor a looked-up location exists |
| OtpEmail.KeepDialChars | Ride-Sharing/src/main/java/com/ridesharing/service/OtpEmailService.java:225-230 | the cleaned number holds only digits and '+' and is no longer than the input |
| OtpEmail.KeepDialCharsPlain | Ride-Sharing/src/main/java/com/ridesharing/service/OtpEmailService.java:225-230 | a string of digits and '+' is kept as it is |
| OtpEmail.KeepDialCharsNone | Ride-Sharing/src/main/java/com/ridesharing/service/OtpEmailService.java:225-230 | a string with no digit and no '+' cleans to "" |
| OtpEmail.FormatCharset | Ride-Sharing/src/main/java/com/ridesharing/service/OtpEmailService.java:225-250 | a normalised number holds only digits and '+' |
| OtpEmail.FormatIdempotent | Ride-Sharing/src/main/java/com/ridesharing/service/OtpEmailService.java:225-250 | normalising a normalised number changes nothing |
| OtpEmail.JunkPhoneFormatsEmpty | Ride-Sharing/src/main/java/com/ridesharing/service/OtpEmailService.java:225-250 | a number with no digit and no '+' normalises to "", and "" is then refused |
| OtpEmail.FormatPrefixes | Ride-Sharing/src/main/java/com/ridesharing/service/OtpEmailService.java:225-250 | a cleaned number starting with '+' is kept, ten digits get +91, twelve digits starting 91 get '+', and a null phone is refused |
| OtpEmail.GenerateOtp | Ride-Sharing/src/main/java/com/ridesharing/service/OtpEmailService.java:40-49 | the code is six decimal digits |
| OtpEmail.OtpService.constructor | Ride-Sharing/src/main/java/com/ridesharing/service/OtpEmailService.java:19-29 | the service starts with the given table |
| OtpEmail.OtpService.GenerateAndSendOtp | Ride-Sharing/src/main/java/com/ridesharing/service/OtpEmailService.java:55-94 | the answer and the new table are the issue outcome; a failing mail step rolls the table back |
| OtpEmail.IssueFailureRollsBack | Ride-Sharing/src/main/java/com/ridesharing/service/OtpEmailService.java:55-94 | every failed issue is reported under "Failed to generate OTP: " and leaves the table as it was |
| OtpEmail.IssueSuccess | Ride-Sharing/src/main/java/com/ridesharing/service/OtpEmailService.java:55-94 | success needs a normalising phone, an e-mail and a passed rate check; it leaves exactly one row for the phone, the new unused code expiring five minutes later, and keeps the other phones' rows in order |
| OtpEmail.JunkPhoneIsRateLimited | Ride-Sharing/src/main/java/com/ridesharing/service/OtpEmailService.java:58-69 | an all-junk phone passes the first normalisation as "" and then fails the rate check |
| OtpEmail.DeletePhoneOthers | Ride-Sharing/src/main/java/com/ridesharing/service/OtpEmailService.java:72 | deleting a phone's codes removes exactly that phone's rows: no row of it survives, every row of another phone stays, the result is a subsequence in table order with every copy of the kept rows, and one row per phone still holds |
| OtpEmail.IssueKeepsOnePerPhone | Ride-Sharing/src/main/java/com/ridesharing/service/OtpEmailService.java:72-80 | issuing keeps at most one row per phone |
| OtpEmail.RecentCountAtMostOne | Ride-Sharing/src/main/java/com/ridesharing/service/OtpEmailService.java:198-208 | with at most one row per phone the hourly count is at most one |
| OtpEmail.RecentCountNone | Ride-Sharing/src/main/java/com/ridesharing/service/OtpEmailService.java:198-208 | a phone with no row counts zero |
| OtpEmail.OnePerPhoneNeverRateLimited | Ride-Sharing/src/main/java/com/ridesharing/service/OtpEmailService.java:198-208 | while the table keeps one row per phone, the hourly limit never refuses a phone that normalises to a non-empty number |
| OtpEmail.FirstMatch | Ride-Sharing/src/main/java/com/ridesharing/service/OtpEmailService.java:163-193 | the index of the first unused row with that phone and code, or the table length when there is none |
| OtpEmail.MatchCountAfterUse | Ride-Sharing/src/main/java/com/ridesharing/service/OtpEmailService.java:163-193 | marking a matching row used lowers the match count by one |
| OtpEmail.VerifyMeaning | Ride-Sharing/src/main/java/com/ridesharing/service/OtpEmailService.java:163-193 | verification succeeds exactly when the phone normalises, exactly one unused row holds the code and that row is valid; success marks only that row used |
| OtpEmail.VerifiesAtMostOnce | Ride-Sharing/src/main/java/com/ridesharing/service/OtpEmailService.java:163-193 | after a success the same phone and code fail, whatever the validity test then says |
| OtpEmail.VerifyKeepsOnePerPhone | Ride-Sharing/src/main/java/com/ridesharing/service/OtpEmailService.java:163-193 | verification keeps at most one row per phone |
| OtpEmail.OtpService.VerifyOtp | Ride-Sharing/src/main/java/com/ridesharing/service/OtpEmailService.java:163-193 | the answer and the new table are the verification outcome |
| OtpEmail.FormatPhone | Ride-Sharing/src/main/java/com/ridesharing/service/OtpEmailService.java:225-250 | `formatPhoneNumber`; see FormatCharset, FormatIdempotent, FormatPrefixes, JunkPhoneFormatsEmpty |
| OtpEmail.RecentCount | Ride-Sharing/src/main/java/com/ridesharing/service/OtpEmailService.java:202 | `countByPhoneNumberAndCreatedAtAfter`; see RecentCountAtMostOne, RecentCountNone |
| OtpEmail.CanSend | Ride-Sharing/src/main/java/com/ridesharing/service/OtpEmailService.java:198-208 | `canSendOtp`; see OnePerPhoneNeverRateLimited, JunkPhoneIsRateLimited |
| OtpEmail.DeletePhone | Ride-Sharing/src/main/java/com/ridesharing/service/OtpEmailService.java:72 | `deleteByPhoneNumber`; see DeletePhoneOthers |
| OtpEmail.IssueOutcome | Ride-Sharing/src/main/java/com/ridesharing/service/OtpEmailService.java:55-94 | `generateAndSendOtp`: the outcome and the table; see IssueSuccess, IssueFailureRollsBack, IssueKeepsOnePerPhone |
| OtpEmail.VerifyOutcome | Ride-Sharing/src/main/java/com/ridesharing/service/OtpEmailService.java:163-193 | `verifyOtp`: the answer and the table; see VerifyMeaning, VerifiesAtMostOnce, VerifyKeepsOnePerPhone |
| SendGrid.SendGridEmailService.constructor | Ride-Sharing/src/main/java/com/ridesharing/service/SendGridEmailService.java:21-28 | a missing sender takes noreply@smartride.com and SmartRide; the key is kept as given |
| SendGrid.SendGridEmailService.SendOtpEmail | Ride-Sharing/src/main/java/com/ridesharing/service/SendGridEmailService.java:33-151 | no key or an empty one skips the send; a 2xx status sends the escaped payload; any other status, or an I/O failure, is an error carrying the prefix and the cause |
| SendGrid.ReplaceCharConcat | Ride-Sharing/src/main/java/com/ridesharing/service/SendGridEmailService.java:83-88 | replacing a character distributes over concatenation |
| SendGrid.ReplaceOne | Ride-Sharing/src/main/java/com/ridesharing/service/SendGridEmailService.java:83-88 | on one character a replacement gives the replacement text or the character |
| SendGrid.ReplaceTwo | Ride-Sharing/src/main/java/com/ridesharing/service/SendGridEmailService.java:83-88 | a replacement leaves a two-character string without the target unchanged |
| SendGrid.ChainOfOne | Ride-Sharing/src/main/java/com/ridesharing/service/SendGridEmailService.java:83-88 | the chain maps one character to its own escape |
| SendGrid.ChainIsMap | Ride-Sharing/src/main/java/com/ridesharing/service/SendGridEmailService.java:83-88 | because the backslash is replaced first, the chain equals the per-character mapping |
| SendGrid.UnescapeAfterChar | Ride-Sharing/src/main/java/com/ridesharing/service/SendGridEmailService.java:83-88 | JSON-unescaping an escaped character followed by more text decodes the character first |
| SendGrid.MapRoundTrip | Ride-Sharing/src/main/java/com/ridesharing/service/SendGridEmailService.java:83-88 | JSON-unescaping the per-character mapping gives back the input when it holds no other control character, and fails when it does |
| SendGrid.EscapeRoundTrip | Ride-Sharing/src/main/java/com/ridesharing/service/SendGridEmailService.java:83-88 | JSON-unescaping the chain's output gives back the HTML exactly when it holds no control character other than newline, CR and tab |
| SendGrid.ControlCharacterBreaksRoundTrip | Ride-Sharing/src/main/java/com/ridesharing/service/SendGridEmailService.java:83-88 | U+0001 passes through raw, and the result is not valid JSON string content |
| SendGrid.MapShape | Ride-Sharing/src/main/java/com/ridesharing/service/SendGridEmailService.java:83-88 | the mapping leaves no raw newline, CR or tab and adds one character per special character |
| SendGrid.EscapeShape | Ride-Sharing/src/main/java/com/ridesharing/service/SendGridEmailService.java:83-88 | the chain's output has no raw newline, CR or tab and is one character longer for each special character |
| SendGrid.RawFieldsUnescaped | Ride-Sharing/src/main/java/com/ridesharing/service/SendGridEmailService.java:90-113 | only the HTML is escaped: a recipient address with a quote enters the payload raw and is not valid JSON string content |
| SendGrid.EscapeChain | Ride-Sharing/src/main/java/com/ridesharing/service/SendGridEmailService.java:83-88 | the five `replace` calls in source order; see ChainIsMap, EscapeRoundTrip, EscapeShape |
| SendGrid.PayloadOf | Ride-Sharing/src/main/java/com/ridesharing/service/SendGridEmailService.java:90-113 | the JSON payload's fields; see RawFieldsUnescaped |
| EmergencyAlertEntity.ParseAlertType | Ride-Sharing/src/main/java/com/ridesharing/entity/EmergencyAlert.java:67-73 | `valueOf` succeeds exactly for the three constant names, case-sensitively, and otherwise fails with the No enum constant message |
| EmergencyAlertEntity.EnumerationsHaveThreeNames | Ride-Sharing/src/main/java/com/ridesharing/entity/EmergencyAlert.java:67-73 | there are three alert types and three statuses, each with its own name |
| EmergencyAlertEntity.ParseTypeName | Ride-Sharing/src/main/java/com/ridesharing/entity/EmergencyAlert.java:67-73 | `valueOf` inverts the constant name |
| EmergencyAlertEntity.EmergencyAlert.constructor | Ride-Sharing/src/main/java/com/ridesharing/entity/EmergencyAlert.java:17-65 | every field is null except the status, which starts ACTIVE |
| EmergencyAlertEntity.EmergencyAlert.Load | Ride-Sharing/src/main/java/com/ridesharing/entity/EmergencyAlert.java:17-65 | the entity holds the stored row's values |
| EmergencyAlertEntity.EmergencyAlert.OnCreate | Ride-Sharing/src/main/java/com/ridesharing/entity/EmergencyAlert.java:75-84 | both stamps become now, a null status becomes ACTIVE, and the tracking expiry becomes one hour later |
| EmergencyAlertEntity.EmergencyAlert.OnUpdate | Ride-Sharing/src/main/java/com/ridesharing/entity/EmergencyAlert.java:86-89 | only `updatedAt` changes, to now |
| EmergencyContactEntity.EmergencyContact.constructor | Ride-Sharing/src/main/java/com/ridesharing/entity/EmergencyContact.java:21-38 | every field is null except `isPrimary`, which starts false |
| EmergencyContactEntity.EmergencyContact.Load | Ride-Sharing/src/main/java/com/ridesharing/entity/EmergencyContact.java:21-38 | the entity holds the stored row's values |
| EmergencyContactEntity.EmergencyContact.OnCreate | Ride-Sharing/src/main/java/com/ridesharing/entity/EmergencyContact.java:46-53 | both stamps become now and a null `isPrimary` becomes false |
| EmergencyContactEntity.EmergencyContact.OnUpdate | Ride-Sharing/src/main/java/com/ridesharing/entity/EmergencyContact.java:55-58 | only `updatedAt` changes, to now |
| EmergencyContactEntity.EmergencyContact.Row | Ride-Sharing/src/main/java/com/ridesharing/entity/EmergencyContact.java:21-38 | the stored row carries the entity's field values under the given id |
| EmergencyContactService.ContactService.constructor | Ride-Sharing/src/main/java/com/ridesharing/service/EmergencyContactService.java:22-37 | the service starts with the given users and an empty contact table |
| EmergencyContactService.ContactService.Add | Ride-Sharing/src/main/java/com/ridesharing/service/EmergencyContactService.java:22-37 | the answer, table and next id are the add outcome, and ids stay unique |
| EmergencyContactService.ContactService.Delete | Ride-Sharing/src/main/java/com/ridesharing/service/EmergencyContactService.java:57-63 | the answer and table are the delete outcome, and ids stay unique |
| EmergencyContactService.ContactService.Update | Ride-Sharing/src/main/java/com/ridesharing/service/EmergencyContactService.java:65-85 | the answer and table are the update outcome, and ids stay unique |
| EmergencyContactService.ContactService.SaveNew | Ride-Sharing/src/main/java/com/ridesharing/service/EmergencyContactService.java:27-35 | the entity filled from the form saves as a contact owned by the caller with the form's fields, `isPrimary` defaulted to false and both times stamped now, and fails to save exactly when the name or phone is missing |
| EmergencyContactService.ContactService.SaveUpdated | Ride-Sharing/src/main/java/com/ridesharing/service/EmergencyContactService.java:77-83 | the loaded contact saves with the five editable fields taken from the form and `updatedAt` stamped now, and fails to save exactly when the name or phone is missing |
| EmergencyContactService.AddMeaning | Ride-Sharing/src/main/java/com/ridesharing/service/EmergencyContactService.java:22-37 | add fails exactly for an unknown user or a missing name or phone and then stores nothing; otherwise it appends one contact with a fresh id, owned by the caller, whose `isPrimary` is the given value or false |
| EmergencyContactService.ListIsOwnersContacts | Ride-Sharing/src/main/java/com/ridesharing/service/EmergencyContactService.java:39-47 | the list holds exactly the caller's contacts, each converted field for field |
| EmergencyContactService.PrimaryIsSubset | Ride-Sharing/src/main/java/com/ridesharing/service/EmergencyContactService.java:49-51 | the primary contacts are the caller's contacts flagged primary, in table order |
| EmergencyContactService.DeleteOnlyOwned | Ride-Sharing/src/main/java/com/ridesharing/service/EmergencyContactService.java:57-63 | delete removes only the caller's row with that id; every other row stays, in order |
| EmergencyContactService.DeleteOfOthersContactIsNoOp | Ride-Sharing/src/main/java/com/ridesharing/service/EmergencyContactService.java:57-63 | deleting another user's contact changes nothing |
| EmergencyContactService.DeleteKeepsValid | Ride-Sharing/src/main/java/com/ridesharing/service/EmergencyContactService.java:57-63 | delete keeps ids unique and below the next id |
| EmergencyContactService.SubsequenceKeepsUnique | Ride-Sharing/src/main/java/com/ridesharing/service/EmergencyContactService.java:57-63 | removing rows keeps ids unique |
| EmergencyContactService.UpdateMeaning | Ride-Sharing/src/main/java/com/ridesharing/service/EmergencyContactService.java:65-85 | update succeeds exactly for a known user, an existing contact the caller owns, and a name and phone; it overwrites the five editable fields of that row only and keeps id, owner and creation time; every failure leaves the table as it was |
| EmergencyContactService.ToDto | Ride-Sharing/src/main/java/com/ridesharing/service/EmergencyContactService.java:87-97 | `toDTO`; see ListIsOwnersContacts |
| EmergencyContactService.ContactService.ListFor | Ride-Sharing/src/main/java/com/ridesharing/service/EmergencyContactService.java:39-47 | `getUserEmergencyContacts`; see ListIsOwnersContacts |
| EmergencyContactService.PrimaryContacts | Ride-Sharing/src/main/java/com/ridesharing/service/EmergencyContactService.java:49-51 | `getPrimaryContacts`; see PrimaryIsSubset |
| EmergencyContactService.DeleteOwned | Ride-Sharing/src/main/java/com/ridesharing/service/EmergencyContactService.java:62 | `deleteByUserAndId`; see DeleteOnlyOwned |
| EmergencyContactService.AddOutcome | Ride-Sharing/src/main/java/com/ridesharing/service/EmergencyContactService.java:22-37 | `addEmergencyContact`: the answer, the table and the next id; see AddMeaning |
| EmergencyContactService.DeleteOutcome | Ride-Sharing/src/main/java/com/ridesharing/service/EmergencyContactService.java:57-63 | `deleteEmergencyContact`: the answer and the table; see DeleteOnlyOwned, DeleteOfOthersContactIsNoOp, DeleteKeepsValid |
| EmergencyContactService.UpdateOutcome | Ride-Sharing/src/main/java/com/ridesharing/service/EmergencyContactService.java:65-85 | `updateEmergencyContact`: the answer and the table; see UpdateMeaning |
| EmergencySOSService.ConfiguredInitializes | Ride-Sharing/src/main/java/com/ridesharing/service/EmergencySOSService.java:253-266 | every configuration that counts as configured initializes, but a missing phone number still initializes and yet counts as not configured |
| EmergencySOSService.SOSService.NotifyContacts | Ride-Sharing/src/main/java/com/ridesharing/service/EmergencySOSService.java:97-128 | the loop's flags are those of the loop over all contacts |
| EmergencySOSService.ExistsSnoc | Ride-Sharing/src/main/java/com/ridesharing/service/EmergencySOSService.java:97-128 | a contact of a longer prefix satisfies a test iff one of the shorter prefix does or the new contact does |
| EmergencySOSService.NotifyAllMeaning | Ride-Sharing/src/main/java/com/ridesharing/service/EmergencySOSService.java:97-128 | emailSent iff some non-empty e-mail was delivered; smsSent iff Twilio is configured and some contact was processed to the end; callInitiated iff also the type is EMERGENCY_CALL and some processed contact is primary |
| EmergencySOSService.NoContactsNoFlags | Ride-Sharing/src/main/java/com/ridesharing/service/EmergencySOSService.java:97-128 | with no contacts all three flags stay false |
| EmergencySOSService.FailedEmailSkipsContact | Ride-Sharing/src/main/java/com/ridesharing/service/EmergencySOSService.java:106-126 | a contact whose e-mail fails contributes nothing, not even its SMS or call |
| EmergencySOSService.SOSService.constructor | Ride-Sharing/src/main/java/com/ridesharing/service/EmergencySOSService.java:54-60 | the service starts with the given users, rides and Twilio configuration, and no alert |
| EmergencySOSService.SOSService.DescribeAlert | Ride-Sharing/src/main/java/com/ridesharing/service/EmergencySOSService.java:62-80 | the fresh entity carries the caller, the request's position and message, the chosen type, status ACTIVE, the ride only when it exists, and no resolution |
| EmergencySOSService.SOSService.AttachLinks | Ride-Sharing/src/main/java/com/ridesharing/service/EmergencySOSService.java:82-89 | the entity gets the Maps link of the position, the tracking link of the caller and position, and an expiry one hour after now |
| EmergencySOSService.SOSService.BuildAlert | Ride-Sharing/src/main/java/com/ridesharing/service/EmergencySOSService.java:62-92 | the row saved for the request under the next id is the new alert of the trigger outcome |
| EmergencySOSService.SOSService.TriggerSOS | Ride-Sharing/src/main/java/com/ridesharing/service/EmergencySOSService.java:54-147 | the answer, alert table and next id are the trigger outcome |
| EmergencySOSService.TriggerFailure | Ride-Sharing/src/main/java/com/ridesharing/service/EmergencySOSService.java:54-147 | triggering fails exactly for an unknown user or an unknown type name, with the service's prefix on the message, and then stores nothing |
| EmergencySOSService.TriggerSuccess | Ride-Sharing/src/main/java/com/ridesharing/service/EmergencySOSService.java:54-147 | success appends one ACTIVE alert of the requested type (SOS by default) stamped now, expiring an hour later; the response carries its id, expiry, the fixed status and the loop's flags over the caller's contacts |
| EmergencySOSService.TriggeredAlertIsListed | Ride-Sharing/src/main/java/com/ridesharing/service/EmergencySOSService.java:279-286 | a fresh alert is on the active list and on every recent list with a positive window |
| EmergencySOSService.ActiveAlerts | Ride-Sharing/src/main/java/com/ridesharing/service/EmergencySOSService.java:279-281 | the active list is exactly the ACTIVE alerts: a subsequence of the table, in table order, with every copy of an ACTIVE alert and none of another (`findByStatus` has no ORDER BY, so table order stands for the repository's unspecified order) |
| EmergencySOSService.RecentAlerts | Ride-Sharing/src/main/java/com/ridesharing/service/EmergencySOSService.java:283-286 | the recent list is exactly the alerts created strictly after now minus the window: a subsequence of the table, in table order, with every copy of such an alert and none of another (`findByCreatedAtAfter` has no ORDER BY, so table order stands for the repository's unspecified order) |
| EmergencySOSService.RecentWindowGrows | Ride-Sharing/src/main/java/com/ridesharing/service/EmergencySOSService.java:283-286 | a wider window lists every alert a narrower one does, in the same order |
| EmergencySOSService.SOSService.ResolveAlert | Ride-Sharing/src/main/java/com/ridesharing/service/EmergencySOSService.java:288-298 | the answer and alert table are the resolve outcome |
| EmergencySOSService.SOSService.MarkResolved | Ride-Sharing/src/main/java/com/ridesharing/service/EmergencySOSService.java:293-295 | the entity becomes RESOLVED, resolved at now by the admin |
| EmergencySOSService.SOSService.ResolveStored | Ride-Sharing/src/main/java/com/ridesharing/service/EmergencySOSService.java:290-297 | the loaded alert, marked resolved and saved, is the resolved row of the resolve outcome |
| EmergencySOSService.ResolveUnknown | Ride-Sharing/src/main/java/com/ridesharing/service/EmergencySOSService.java:288-298 | resolving fails exactly when no alert has that id, and then changes nothing |
| EmergencySOSService.ResolveChangesOnlyThatAlert | Ride-Sharing/src/main/java/com/ridesharing/service/EmergencySOSService.java:288-298 | that one alert becomes RESOLVED by the admin at now, with `updatedAt` stamped; every other field and alert is kept |
| EmergencySOSService.ResolveLeavesActiveList | Ride-Sharing/src/main/java/com/ridesharing/service/EmergencySOSService.java:288-298 | with unique ids, resolving takes exactly that alert off the active list and keeps the others in order |
| EmergencySOSService.ResolvedLeavesActiveList | Ride-Sharing/src/main/java/com/ridesharing/service/EmergencySOSService.java:288-298 | with unique ids, resolving the alert at a given position leaves the active list less exactly that alert |
| EmergencySOSService.OthersKeep | Ride-Sharing/src/main/java/com/ridesharing/service/EmergencySOSService.java:288-298 | alerts drawn from rows that differ from the id differ from it too |
| EmergencySOSService.IsTwilioConfigured | Ride-Sharing/src/main/java/com/ridesharing/service/EmergencySOSService.java:262-266 | `isTwilioConfigured`; see ConfiguredInitializes |
| EmergencySOSService.InitializeTwilio | Ride-Sharing/src/main/java/com/ridesharing/service/EmergencySOSService.java:253-260 | `initializeTwilio`; see ConfiguredInitializes |
| EmergencySOSService.Notify | Ride-Sharing/src/main/java/com/ridesharing/service/EmergencySOSService.java:106-126 | one pass of the notification loop body; see FailedEmailSkipsContact |
| EmergencySOSService.NotifyAll | Ride-Sharing/src/main/java/com/ridesharing/service/EmergencySOSService.java:97-128 | the flags after the notification loop; see NotifyAllMeaning, NoContactsNoFlags |
| EmergencySOSService.NewAlert | Ride-Sharing/src/main/java/com/ridesharing/service/EmergencySOSService.java:62-92 | the stored alert after the creation hook; see TriggerSuccess |
| EmergencySOSService.SOSService.TriggerOutcome | Ride-Sharing/src/main/java/com/ridesharing/service/EmergencySOSService.java:54-147 | `triggerSOS`: the answer, the alert table and the next id; see TriggerFailure, TriggerSuccess, TriggeredAlertIsListed |
| EmergencySOSService.ResolvedAlert | Ride-Sharing/src/main/java/com/ridesharing/service/EmergencySOSService.java:293-297 | the alert after resolving, the update hook included; see ResolveChangesOnlyThatAlert |
| EmergencySOSService.ResolveOutcome | Ride-Sharing/src/main/java/com/ridesharing/service/EmergencySOSService.java:288-298 | `resolveAlert`: the answer and the table; see ResolveUnknown, ResolveChangesOnlyThatAlert, ResolveLeavesActiveList |
| ControllerSupport.ExtractToken | Ride-Sharing/src/main/java/com/ridesharing/controller/EmergencySOSController.java:47-53 | a token is extracted exactly when the header is present and starts with "Bearer "; header = "Bearer " + token; otherwise the controller's message |
| ControllerSupport.ExtractPrefixed | Ride-Sharing/src/main/java/com/ridesharing/controller/EmergencyContactController.java:28-34 | the token of "Bearer " + t is t |
| ControllerSupport.ExtractRefuses | Ride-Sharing/src/main/java/com/ridesharing/controller/AdminController.java:72-78 | the scheme name is matched case-sensitively, and an absent header is refused |
| ControllerSupport.ClientHeaderAccepted | Ride-Sharing/src/main/java/com/ridesharing/controller/AdminController.java:72-78 | the header the web client sends is accepted and yields its token; without a token the client sends no header |
| EmergencySOSController.TriggerSOS | Ride-Sharing/src/main/java/com/ridesharing/controller/EmergencySOSController.java:27-45 | the response and tables are the trigger endpoint outcome |
| EmergencySOSController.TriggerFailureEnvelope | Ride-Sharing/src/main/java/com/ridesharing/controller/EmergencySOSController.java:36-44 | every failure is a 400 with status FAILED and the prefixed message; a missing token stores nothing |
| EmergencySOSController.UnknownUserDoublePrefix | Ride-Sharing/src/main/java/com/ridesharing/controller/EmergencySOSController.java:36-44 | an unknown user's message carries the prefix twice |
| EmergencySOSController.RecentDefaultsToOneDay | Ride-Sharing/src/main/java/com/ridesharing/controller/EmergencySOSController.java:66-76 | without the parameter the recent list covers 24 hours |
| EmergencySOSController.ResolveAlert | Ride-Sharing/src/main/java/com/ridesharing/controller/EmergencySOSController.java:78-89 | the response and alert table are the resolve endpoint outcome |
| EmergencySOSController.ResolveNeedsNumericPrincipal | Ride-Sharing/src/main/java/com/ridesharing/controller/EmergencySOSController.java:83 | a principal name that is not a number gives a 400 and changes nothing |
| EmergencySOSController.ResolveAlwaysResolved | Ride-Sharing/src/main/java/com/ridesharing/controller/EmergencySOSController.java:78-89 | a successful resolve always records RESOLVED by the numeric principal; no request sets another status |
| EmergencySOSController.TriggerEndpointOutcome | Ride-Sharing/src/main/java/com/ridesharing/controller/EmergencySOSController.java:27-45 | `POST /sos`; see TriggerFailureEnvelope, UnknownUserDoublePrefix |
| EmergencySOSController.ActiveAlertsEndpoint | Ride-Sharing/src/main/java/com/ridesharing/controller/EmergencySOSController.java:55-64 | `GET /alerts/active`: the service's active list; see EmergencySOSService.ActiveAlerts |
| EmergencySOSController.RecentAlertsEndpoint | Ride-Sharing/src/main/java/com/ridesharing/controller/EmergencySOSController.java:66-76 | `GET /alerts/recent`; see RecentDefaultsToOneDay |
| EmergencySOSController.ResolveEndpointOutcome | Ride-Sharing/src/main/java/com/ridesharing/controller/EmergencySOSController.java:78-89 | `POST /alerts/{alertId}/resolve`; see ResolveNeedsNumericPrincipal, ResolveAlwaysResolved |
| EmergencyContactController.AddContact | Ride-Sharing/src/main/java/com/ridesharing/controller/EmergencyContactController.java:36-47 | the response, table and next id are the add endpoint outcome |
| EmergencyContactController.UpdateContact | Ride-Sharing/src/main/java/com/ridesharing/controller/EmergencyContactController.java:60-72 | the response and table are the update endpoint outcome |
| EmergencyContactController.DeleteContact | Ride-Sharing/src/main/java/com/ridesharing/controller/EmergencyContactController.java:74-85 | the response and table are the delete endpoint outcome |
| EmergencyContactController.ErrorMapping | Ride-Sharing/src/main/java/com/ridesharing/controller/EmergencyContactController.java:44-84 | every failure of every endpoint is a 400 reading "Error: " and the message, and leaves the table as it was; without a valid header the message is the controller's |
| EmergencyContactController.ScopedToCaller | Ride-Sharing/src/main/java/com/ridesharing/controller/EmergencyContactController.java:23-85 | the list is the caller's own, a delete keeps every contact the caller does not own, and an update of another's contact is refused with "Unauthorized access" and changes nothing |
| EmergencyContactController.AddEndpointOutcome | Ride-Sharing/src/main/java/com/ridesharing/controller/EmergencyContactController.java:36-47 | `POST`; see AddContact, ErrorMapping |
| EmergencyContactController.ListEndpoint | Ride-Sharing/src/main/java/com/ridesharing/controller/EmergencyContactController.java:49-58 | `GET`; see ScopedToCaller |
| EmergencyContactController.UpdateEndpointOutcome | Ride-Sharing/src/main/java/com/ridesharing/controller/EmergencyContactController.java:60-72 | `PUT /{contactId}`; see UpdateContact, ErrorMapping |
| EmergencyContactController.DeleteEndpointOutcome | Ride-Sharing/src/main/java/com/ridesharing/controller/EmergencyContactController.java:74-85 | `DELETE /{contactId}`; see DeleteContact, ErrorMapping |
| AdminController.AdminLogin | Ride-Sharing/src/main/java/com/ridesharing/controller/AdminController.java:25-34 | the response and admin table are the login endpoint outcome |
| AdminController.LoginFailureEnvelope | Ride-Sharing/src/main/java/com/ridesharing/controller/AdminController.java:25-34 | a failed login is always the same 400 ERROR envelope without data |
| AdminController.ProfileEnvelope | Ride-Sharing/src/main/java/com/ridesharing/controller/AdminController.java:36-48 | a missing or non-Bearer header gives the controller's message; with a subject the answer is that e-mail's profile, "Admin not found" when no active admin has it |
| AdminController.DriverListPassThrough | Ride-Sharing/src/main/java/com/ridesharing/controller/AdminController.java:50-70 | a successful answer passes through unchanged and a failure becomes the ERROR envelope |
| AdminController.LoginEndpointOutcome | Ride-Sharing/src/main/java/com/ridesharing/controller/AdminController.java:25-34 | `POST /login`; see AdminLogin, LoginFailureEnvelope |
| AdminController.ProfileEndpoint | Ride-Sharing/src/main/java/com/ridesharing/controller/AdminController.java:36-48 | `GET /profile`; see ProfileEnvelope |
| AdminController.DriverListEndpoint | Ride-Sharing/src/main/java/com/ridesharing/controller/AdminController.java:50-70 | `GET /drivers` and `/drivers/pending`; see DriverListPassThrough |
| AdminService.FindActive | Ride-Sharing/src/main/java/com/ridesharing/service/AdminService.java:32-33 | no result exactly when no active admin has the e-mail; a result is an active admin with that e-mail |
| AdminService.SetLastLogin | Ride-Sharing/src/main/java/com/ridesharing/service/AdminService.java:41 | only the rows with that id get the new last-login stamp |
| AdminService.AdminAccounts.constructor | Ride-Sharing/src/main/java/com/ridesharing/service/AdminService.java:28-31 | the service starts with the given admin table |
| AdminService.AdminAccounts.AuthenticateAdmin | Ride-Sharing/src/main/java/com/ridesharing/service/AdminService.java:28-62 | the answer and admin table are the login outcome; a failure to create tokens rolls the stamp back |
| AdminService.LoginSucceedsIff | Ride-Sharing/src/main/java/com/ridesharing/service/AdminService.java:28-62 | login succeeds exactly for the one active admin with that e-mail whose password matches, when both tokens are created; the response is a Bearer pair, the lifetime in whole seconds and that admin's profile; every failure reads "Invalid admin credentials" |
| AdminService.LastLoginOnlyOnSuccess | Ride-Sharing/src/main/java/com/ridesharing/service/AdminService.java:41-61 | the table changes only on success, and then only the last-login stamp of the admin who logged in |
| AdminService.ExpiresInWholeSeconds | Ride-Sharing/src/main/java/com/ridesharing/service/AdminService.java:51-52 | expiresIn is the lifetime in whole seconds, rounded down |
| AdminService.ProfileMeaning | Ride-Sharing/src/main/java/com/ridesharing/service/AdminService.java:64-81 | an e-mail with no active admin gives "Admin not found"; a found profile is that admin's seven fields |
| AdminService.ToDto | Ride-Sharing/src/main/java/com/ridesharing/service/AdminService.java:71-80 | `convertToDto`; see ProfileMeaning |
| AdminService.LoginOutcome | Ride-Sharing/src/main/java/com/ridesharing/service/AdminService.java:28-62 | `authenticateAdmin`: the answer and the table; see LoginSucceedsIff, LastLoginOnlyOnSuccess, ExpiresInWholeSeconds |
| AdminService.ProfileOutcome | Ride-Sharing/src/main/java/com/ridesharing/service/AdminService.java:64-69 | `getAdminProfile`; see ProfileMeaning |

## Left out

- Network, mail, SMS and voice I/O is not modelled.
  - `fetch`, the SendGrid HTTP exchange, Twilio and JavaMail are replaced by reply, connection and `mailOk` parameters.
  - The Thymeleaf/HTML template rendering becomes an `html` parameter.
- SMS and call failures are swallowed inside their senders. Their flags therefore depend on the guards alone, and the senders' bodies are not modelled.
- JWT parsing and signing are parameters (`decode`, `subjectOf`, the token results). So is the OTP record's own `isValid` test; `markAsUsed` sets `isUsed`.
- The browser's `localStorage` is a small class. The geolocation lookup is an oracle, and `Math.random` is a nondeterministic digit.
- `Date.now()` and `LocalDateTime.now()` are `now` parameters. `new Date(...)` parsing is an oracle: a timestamp or "does not parse".
- Floating-point layout values are not modelled, and neither is `toLocaleDateString`, which becomes a `dateLabel` parameter.
- The exact Google Maps links built with `%f` are abstract values.
- The TwiML response is not modelled.
- `cleanupExpiredOtps` is not modelled; it is a scheduled deletion with no caller in the core.
- OtpService is not part of this model; it only delegates. The same goes for the Firebase functions, RideController, the health controllers, and the driver-detail service behind the admin driver endpoints.
- The AdminDashboard fetch, verify and delete handlers are not modelled. The loading flags and console logging are not modelled either.
- The toast removal timer's delay is not modelled; removal is the updater alone.
- Persistence-layer details are not modelled:
  - the Hibernate not-null message, the non-unique-result message and the `@PreUpdate` dirty check (the hook always stamps);
  - Unicode digits accepted by `Long.parseLong`;
  - a null authentication in resolve;
  - a non-numeric `hours` parameter, which Spring rejects before the controller;
  - `Map.of` with a null message.
- PassengerDashboard.Dashboard.BookRide: the list refreshes after a booking (`loadAllRides`, `fetchBookings`) are separate handlers and are not repeated inside BookRide.
- DriverDashboard.Dashboard.SubmitPostRide: the `fetchData()` refresh after a successful post is a separate handler and is not repeated inside SubmitPostRide.
- JsNumbers.ParseFloat: numbers are exact reals. Floating-point rounding is not modelled, and neither is an exponent so large that JavaScript reads `Infinity`. The numeral `Infinity` itself, which `parseFloat` accepts, reads as NaN in the model. Both only make a price fail the range checks in a different way.
- OtpEmail.IssueSuccess: the new row is stored with `createdAt` equal to the issue time and `isUsed` false. The OtpVerification entity that sets these is not part of this model. The hourly rate check reads `createdAt`, so the one-row-per-phone and rate-limit lemmas rest on that assumption.
- EmergencySOSService.ActiveAlerts, EmergencySOSService.RecentAlerts: the repository queries have no ORDER BY, so their order is whatever the database returns. The model fixes it to table order.
- DriverDashboard.Dashboard.CalculateFare: the server's `calculatedFare` is a whole number in the model, so the `toString()` of a fractional fare written into the price field is not captured.
- JsNumbers.ParseInt: a radix argument is never passed in the core, so only the default radix (10, or 16 after `0x`) is modelled.
- JsStrings.Lower: only A to Z are folded. JavaScript's `toLowerCase` folds all of Unicode, so "Élise" matches a search for "élise" in the browser but not in the model, and for some characters ("İ") it changes the length. Admin searches and role filters that depend on non-ASCII case are not captured.
- DriverDashboard.FareRuleBounds: the fare is computed on the server. Only the rule documented in the form's text is modelled.
- AdminService.AdminAccounts.AuthenticateAdmin: the response's admin was read before the stamp, so it shows the previous last login. The model keeps this.
- PassengerDashboard.SeatOptionBounds: the `disabled` predicates of the selector and the Book button have no lemma beyond this one.

## Findings

| source | as written | input that shows it | evidently intended | confidence | as-written member | corrected member |
|---|---|---|---|---|---|---|
| client/src/components/EmergencySOSButton.jsx:86 | calls `apiService.post`, which `ApiService` in api.js does not define, so a TypeError reaches the catch before any request is sent | any SOS trigger, whatever the server would answer | post the payload to `/emergency/sos` and act on the reply | high, not executed | SOSButton.SosNeverSentAsWritten | SOSButton.Button.TriggerSOS |
| client/src/components/DriverDashboard.jsx:131 | calls `apiService.get`, which is not defined, so building the `Promise.all` argument throws and the catch empties the list | any refresh of the recent activities | fetch the earnings and merge bookings and payments | high, not executed | DriverDashboard.ActivitiesEmptyAsWritten | DriverDashboard.Dashboard.FetchRecentActivities |
