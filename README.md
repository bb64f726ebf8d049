# ministryfrontend: session lifecycle, access gate and list rules in Dafny

This project models the client-side core of the ministry-of-health front end.

The main part is the **session provider** (`UserProvider`). It keeps three things in step:
- the signed-in user and token, held in memory;
- a `loading` flag;
- three keys of the browser's durable key/value store (`expirationTime`, `user`, `token`).

Its operations are `login`, `logout`, the restore-on-load effect, the effect's cleanup, and the single auto-logout timer that the restore effect arms.

Three parts read or drive that state:
- the **access gate** (`ProtectedRoute`);
- the **route table**, which decides which paths go through the gate;
- the **login page**, which posts credentials and calls `login`.

Around them sit:
- the **dashboard data hook**: token check, ordered query, bearer header, and the `{data, loading, error}` view;
- the rules of four smaller screens:
  - the sales dashboard's filter dispatch, monthly mapping and delete merge;
  - the patient directory's search, row toggle and response normalisation;
  - the record-sale form's two-step check and reset;
  - the clinic overview's name filter.

How the model represents the running program:
- **Time** is an explicit clock in milliseconds: the `now` field of the provider.
- **The timer** is an optional instant at which `logout` runs.
- **Network replies** are inputs to the methods that complete a request. A request is split at its suspension point: one method runs up to the call and returns what it sends, another applies the reply.
- **Stored values** are text. The expiry instant round-trips through its decimal text (`toString` followed by `parseInt`) as long as it is a safe integer (see Left out). The user record is opaque JSON text.

In these points the code departs from the behaviour its authors evidently meant; the model follows the code:
- `login` schedules no timer. Only the restore effect does (`Session.LoginAloneNeverExpires`).
- A second `login` does not replace the timer a reload armed. That timer still logs out the newer session (`Session.StaleTimerEndsNewerLogin`).
- The dashboard hook tags no request with a generation. Whichever reply completes last is shown, even a superseded one (`DashboardData.LastCompletionWins`).
- Restoring a live session leaves `loading` set (see Findings).

Modules, one file each:

| file | module | models |
|---|---|---|
| common.dfy | Common | options, replies, JSON text, integer-or-NaN numbers, ASCII `toLowerCase`, `includes`, `Array.filter` |
| number_text.dfy | NumberText | `toString`, `parseInt` and `Number` on integer text |
| session.dfy | Session | `src/hooks/useUser.jsx` |
| access_gate.dfy | AccessGate | `src/components/ProtectedRoute.jsx` |
| routes.dfy | Routes | `src/main.jsx` |
| login_page.dfy | LoginPage | `src/components/Login.jsx` |
| dashboard_data.dfy | DashboardData | `src/hooks/useDashboardData.jsx` |
| sales_dashboard.dfy | SalesDashboard | `src/components/sales/SalesDashboard.jsx` |
| patient_list.dfy | PatientList | `src/components/patient/PatientList.jsx` |
| record_sale.dfy | RecordSale | `src/pages/sales/RecordSalePage.jsx` |
| clinic_directory.dfy | ClinicDirectory | `src/components/intro.jsx` |

## Model

| member | source | states |
|---|---|---|
| Common.Lower | src/components/patient/PatientList.jsx:94 | `toLowerCase` keeps the length, maps each character through ASCII case folding, and leaves no upper-case letter |
| Common.ContainsIffOccurs | src/components/patient/PatientList.jsx:94 | the left-to-right `includes` scan finds the needle exactly when it occurs at some offset |
| Common.Filter | src/components/patient/PatientList.jsx:93 | `filter` returns an order-preserving subsequence holding exactly the kept elements, each with as many copies as the input has |
| NumberText.Decimal | src/hooks/useUser.jsx:14 | `toString` of a non-negative integer is a non-empty run of digits without a leading zero |
| NumberText.DecimalValue | src/hooks/useUser.jsx:14 | the digits `toString` writes have the number's value |
| NumberText.ParseIntRoundTrip | src/hooks/useUser.jsx:37 | `parseInt` reads back every integer `toString` wrote, and NaN; in JavaScript this holds for safe integers |
| NumberText.NumberOfRoundTrip | src/pages/sales/RecordSalePage.jsx:28 | `Number` reads back every integer `toString` wrote |
| Session.LoginRecordsSession | src/hooks/useUser.jsx:12-19 | `login` stores an expiry reading back as `now + expiresIn*1000`, the user under `user` and the token under `token`; it sets user and token in memory, keeps the timer and `loading`, and leaves every other key alone |
| Session.LogoutClearsSession | src/hooks/useUser.jsx:22-28 | `logout` removes the three keys and clears user and token; it keeps the timer, `loading` and other keys, and a second `logout` changes nothing |
| Session.RestoreAdoptsLiveSession | src/hooks/useUser.jsx:36-44 | with all three keys set and a positive remaining time, the stored user and token are adopted. One logout is scheduled at the stored expiry, i.e. after the remaining time, not a fresh lifetime. The store and `loading` are untouched |
| Session.RestorePurgesLapsedSession | src/hooks/useUser.jsx:36-49 | with all three keys set and a remaining time of zero, below zero or NaN, the result is exactly `logout` followed by clearing `loading` |
| Session.RestoreWithoutStoredSession | src/hooks/useUser.jsx:36-49 | with a key missing or empty, only `loading` changes (to false) |
| Session.RestoreSignsInIffLive | src/hooks/useUser.jsx:31-49 | a reload signs in exactly when a live session is stored, and it is then the only case left loading |
| Session.ReloadAfterLogin | src/hooks/useUser.jsx:12-49 | for a non-empty token `tok`, a reload after `login(u, tok, expiresIn)` at `t0` restores the same user and token, with the timer at the original expiry, exactly when it happens before `t0 + expiresIn*1000`; after that it purges the store |
| Session.ReloadAfterEmptyTokenLogin | src/hooks/useUser.jsx:12-49 | with an empty token, a reload after `login` neither restores nor purges: the user stays signed out, the stored user and expiry stay in place, and only `loading` is cleared |
| Session.TimerFiringIsLogout | src/hooks/useUser.jsx:43 | a due timer fires and yields exactly the `logout` state; otherwise advancing the clock changes nothing |
| Session.RestoredSessionLastsUntilExpiry | src/hooks/useUser.jsx:37-44 | a restored session stays signed in at instant `t` exactly when `t` is before the stored expiry |
| Session.LoginAloneNeverExpires | src/hooks/useUser.jsx:12-19 | with no timer pending, a `login` is never ended by the clock |
| Session.StaleTimerEndsNewerLogin | src/hooks/useUser.jsx:12-44 | a timer armed by a reload also logs out a later `login`, whatever that login's lifetime |
| Session.OperationsKeepPaired | src/hooks/useUser.jsx:12-49 | every operation sets and clears the in-memory user and token together |
| Session.OnlyRestoreClearsLoading | src/hooks/useUser.jsx:9-49 | no sequence of logins, logouts, cleanups and timer firings changes `loading` |
| Session.AfterRestoreIntended | src/hooks/useUser.jsx:31-50 | the corrected restore clears `loading` and otherwise does exactly what the restore effect does |
| Session.SessionProvider.constructor | src/hooks/useUser.jsx:6-9 | the provider mounts with no user, no token, `loading` set, no timer, over the existing store |
| Session.SessionProvider.Login | src/hooks/useUser.jsx:12-19 | writes the three keys and the two fields as `Session.AfterLogin` states |
| Session.SessionProvider.Logout | src/hooks/useUser.jsx:22-28 | removes the three keys and clears the two fields as `Session.AfterLogout` states |
| Session.SessionProvider.RestoreEffect | src/hooks/useUser.jsx:31-50 | reads the three keys, branches, and arms the timer or purges, as `Session.AfterRestore` states |
| Session.SessionProvider.RestoreEffectIntended | src/hooks/useUser.jsx:31-50 | the restore effect with `loading` cleared on every branch |
| Session.SessionProvider.CleanupEffect | src/hooks/useUser.jsx:44 | the cleanup cancels the pending timer and nothing else |
| Session.SessionProvider.AdvanceTo | src/hooks/useUser.jsx:43 | moving the clock runs `logout` if the timer is due by then |
| AccessGate.Decide | src/components/ProtectedRoute.jsx:6-14 | pending iff loading; redirect to `/login` with replace iff not loading and no user; children iff not loading and a user. It reads nothing else |
| AccessGate.NoDecisionBeforeRestore | src/components/ProtectedRoute.jsx:9 | before the restore effect runs, the gate neither redirects nor renders, whatever is stored |
| AccessGate.RestoreWithoutLiveSessionRedirects | src/components/ProtectedRoute.jsx:11 | after a reload without a live stored session, the gate redirects to the login page |
| AccessGate.LiveRestoreLeavesGatePending | src/hooks/useUser.jsx:43-49 | after restoring a live session the gate stays pending through any later events |
| AccessGate.IntendedRestoreDecides | src/components/ProtectedRoute.jsx:9-13 | with the corrected restore, the gate renders exactly when a live session was stored and redirects otherwise |
| AccessGate.TimerFiringLeavesGatePending | src/hooks/useUser.jsx:36-49 | as written, the timer armed by a live restore ends the session exactly at the stored expiry, yet the gate stays pending before and after it fires |
| AccessGate.TimerFiringClosesGate | src/components/ProtectedRoute.jsx:9-13 | with the corrected restore, the gate renders the protected content exactly until the stored expiry and redirects to the login page from then on |
| Routes.OnlyDashboardIsGated | src/main.jsx:25-32 | a path goes through the gate iff it is `dashboard`, and that route wraps the home page |
| Routes.OpenRoutesRenderWithoutGate | src/main.jsx:21-24 | `register`, `login`, `intro` and `center` render their pages in every session state |
| Routes.UnmatchedPathRendersLogin | src/main.jsx:33 | any non-root path naming no child route renders the login page |
| Routes.SessionOnlyAffectsDashboard | src/main.jsx:40-43 | every route reads the one provider, and outside the dashboard the route table selects the same element whatever the session; the login page it may select then redirects a signed-in user by its own effect (`ClinicDirectory.FollowClinicLink`) |
| Routes.DashboardFollowsGate | src/main.jsx:25-32 | the dashboard shows the pending indicator, the redirect or the page, each exactly in the gate's case |
| LoginPage.WithField | src/components/Login.jsx:27-29 | an input change sets only the field named by the input's id |
| LoginPage.FailureText | src/components/Login.jsx:40 | the error toast shows the server's response data, else "Login failed" |
| LoginPage.AsWrittenLoginNeverSurvivesReload | src/components/Login.jsx:37 | the two-argument call stores the lifetime's text as the token and "NaN" as the expiry, and every reload purges the session |
| LoginPage.IntendedLoginSurvivesReload | src/components/Login.jsx:37 | with the three-argument call and a non-empty token, a reload before the lifetime ends restores the user and the server's token, and a later one does not |
| LoginPage.LoginPage.constructor | src/components/Login.jsx:18-19 | the form starts as empty email and password, not loading |
| LoginPage.LoginPage.HandleInputChange | src/components/Login.jsx:27-29 | the form becomes `LoginPage.WithField` of the old form; nothing else changes |
| LoginPage.LoginPage.RedirectEffect | src/components/Login.jsx:23-25 | navigates to `/center` exactly when a user is signed in |
| LoginPage.LoginPage.BeginSubmit | src/components/Login.jsx:31-35 | sets `loading` and posts the form unchanged |
| LoginPage.LoginPage.FinishSubmit | src/components/Login.jsx:35-44 | on success, calls `login` as written and navigates to `/center`; on failure, leaves the session unchanged and shows the error toast. `loading` ends false either way |
| LoginPage.LoginPage.FinishSubmitIntended | src/components/Login.jsx:35-44 | the same with the three-argument `login` call: on success the intended session, a navigation to "/center" and the success toast; on failure no session change and the error toast |
| DashboardData.QueryFor | src/hooks/useDashboardData.jsx:30-33 | each filter is sent exactly when non-empty, under its own key and with its own value, never with an empty value, in the order region, district, time filter |
| DashboardData.EmptyFilterIsLeftOut | src/hooks/useDashboardData.jsx:30-33 | an empty filter's key is absent from the query, whatever the value looked for |
| DashboardData.AuthHeaders | src/hooks/useDashboardData.jsx:36-39 | every request carries `Authorization: Bearer <token>` |
| DashboardData.ErrorText | src/hooks/useDashboardData.jsx:42-51 | a non-ok reply shows its `error` field, else "Failed to load dashboard"; a thrown error shows its message |
| DashboardData.Settled | src/hooks/useDashboardData.jsx:42-54 | after a reply, `loading` is false; data is set iff the reply was ok, with the error cleared then and set otherwise |
| DashboardData.QueryExamples | src/hooks/useDashboardData.jsx:17-33 | the default time filter "all" is always sent |
| DashboardData.RegionWithDefaultFilter | src/hooks/useDashboardData.jsx:17-33 | a chosen region with the other filters at their defaults sends the region, then time filter "all" |
| DashboardData.Dashboard.constructor | src/hooks/useDashboardData.jsx:14-19 | initial state: no data, empty region and district, time filter "all", loading, no error |
| DashboardData.Dashboard.FetchDashboard | src/hooks/useDashboardData.jsx:21-40 | without a token, no request is sent and the view becomes "Not authenticated" and not loading; otherwise it issues the stats request built by `QueryFor` and `AuthHeaders` and sets loading |
| DashboardData.Dashboard.Complete | src/hooks/useDashboardData.jsx:42-55 | the view becomes `DashboardData.Settled` of the reply, whichever request it answers |
| DashboardData.Dashboard.SetRegion | src/hooks/useDashboardData.jsx:58-60 | a changed region re-runs the fetch; the new view is "Not authenticated" without a token, otherwise the old view with loading set, and the request is the stats endpoint with `QueryFor` of the new filters and `AuthHeaders` of the token; an equal value changes nothing |
| DashboardData.Dashboard.SetDistrict | src/hooks/useDashboardData.jsx:58-60 | a changed district re-runs the fetch; the new view is "Not authenticated" without a token, otherwise the old view with loading set, and the request is the stats endpoint with `QueryFor` of the new filters and `AuthHeaders` of the token; an equal value changes nothing |
| DashboardData.Dashboard.SetTimeFilter | src/hooks/useDashboardData.jsx:58-60 | a changed time filter re-runs the fetch; the new view is "Not authenticated" without a token, otherwise the old view with loading set, and the request is the stats endpoint with `QueryFor` of the new filters and `AuthHeaders` of the token; an equal value changes nothing |
| DashboardData.Dashboard.SetToken | src/hooks/useDashboardData.jsx:58-60 | a changed token re-runs the fetch; the new view is "Not authenticated" without a token, otherwise the old view with loading set, and the request is the stats endpoint with `QueryFor` of the new filters and `AuthHeaders` of the token; an equal value changes nothing |
| DashboardData.LastCompletionWins | src/hooks/useDashboardData.jsx:58-60 | with two overlapping requests whose replies arrive in reverse order, the superseded reply is what the view shows |
| SalesDashboard.FilteredCalls | src/components/sales/SalesDashboard.jsx:48-57 | "today" calls sales for 1 day and then today's profit; "last7" and "last30" call their own pair; profit only after sales succeeded; no call for any other filter |
| SalesDashboard.FilteredResult | src/components/sales/SalesDashboard.jsx:43-64 | the result is the two replies when both succeed, else no sales and zero profit; it never fails |
| SalesDashboard.LoadFilteredData | src/components/sales/SalesDashboard.jsx:43-64 | makes the calls of `FilteredCalls` and returns `FilteredResult` |
| SalesDashboard.PointOf | src/components/sales/SalesDashboard.jsx:82-85 | the month is "N/A" iff `_id.month` is missing or 0, else that month; the profit is `totalProfit` or 0 |
| SalesDashboard.MonthlyPoints | src/components/sales/SalesDashboard.jsx:82-85 | one point per monthly row, in order |
| SalesDashboard.FilterLabel | src/components/sales/SalesDashboard.jsx:181-185 | "Today" iff "today", "Last 7 Days" iff "last7", "Last 30 Days" for anything else |
| SalesDashboard.SalesDashboardView.constructor | src/components/sales/SalesDashboard.jsx:30-40 | zero profit, empty lists, loading, filter "today", not deleting |
| SalesDashboard.SalesDashboardView.SetFilter | src/components/sales/SalesDashboard.jsx:96 | a changed filter triggers a reload |
| SalesDashboard.SalesDashboardView.LoadData | src/components/sales/SalesDashboard.jsx:67-96 | when all three dashboard calls succeed, every field is replaced and `loading` cleared; when one fails, only `loading` is cleared |
| SalesDashboard.SalesDashboardView.BeginDelete | src/components/sales/SalesDashboard.jsx:99-103 | a declined confirmation changes nothing; otherwise `deleting` is set |
| SalesDashboard.SalesDashboardView.FinishDelete | src/components/sales/SalesDashboard.jsx:102-118 | after a successful delete only `sales` and `totalProfit` are replaced; after a failure nothing is; `deleting` ends false on every path |
| PatientList.FieldText | src/components/patient/PatientList.jsx:94 | a missing field interpolates as "undefined", a null one as "null" |
| PatientList.FilteredPatients | src/components/patient/PatientList.jsx:92-96 | an order-preserving subsequence of the patients, holding exactly those whose lower-cased "first last phone diagnosis" contains the lower-cased search, with every copy of a duplicated record kept |
| PatientList.EmptySearchShowsAll | src/components/patient/PatientList.jsx:93-94 | an empty search shows every patient in order |
| PatientList.SearchIgnoresCase | src/components/patient/PatientList.jsx:94 | a search and its lower case show the same rows |
| PatientList.MissingFieldIsSearchedAsUndefined | src/components/patient/PatientList.jsx:94 | a patient with missing fields matches the search "undef" |
| PatientList.Toggle | src/components/patient/PatientList.jsx:90 | the row closes iff it was the open one, and otherwise becomes the only open row |
| PatientList.ToggleTwice | src/components/patient/PatientList.jsx:90 | toggling a row twice restores the state iff no other row was open |
| PatientList.Normalise | src/components/patient/PatientList.jsx:64 | an array reply is used as is; otherwise its `patients` field, or no patients |
| PatientList.NormaliseAcceptsBothShapes | src/components/patient/PatientList.jsx:64 | the bare array and the wrapped one load the same list |
| PatientList.PatientDirectory.constructor | src/components/patient/PatientList.jsx:54-57 | no patients, loading, empty search, no row open |
| PatientList.PatientDirectory.Body | src/components/patient/PatientList.jsx:132-149 | the loading row iff loading; "No patients found" iff not loading and the filtered list is empty; otherwise the filtered rows |
| PatientList.PatientDirectory.BeginLoad | src/components/patient/PatientList.jsx:60-61 | a load sets `loading` |
| PatientList.PatientDirectory.FinishLoad | src/components/patient/PatientList.jsx:62-71 | a reply replaces the list with its normalised form, a failure keeps the old list; `loading` ends false |
| PatientList.PatientDirectory.SetSearch | src/components/patient/PatientList.jsx:115 | sets the search and nothing else |
| PatientList.PatientDirectory.ToggleRow | src/components/patient/PatientList.jsx:90 | the open row becomes `PatientList.Toggle` of the old one |
| PatientList.PatientDirectory.HandleDelete | src/components/patient/PatientList.jsx:78-88 | a declined confirmation sends nothing; a confirmed one sends the delete and reloads iff it succeeded |
| RecordSale.CheckSubmission | src/pages/sales/RecordSalePage.jsx:26-30 | no drug is refused first, then a quantity at most zero; otherwise the request is the drug and `Number(quantity)`, which is positive or NaN |
| RecordSale.ResetQuantityIsAccepted | src/pages/sales/RecordSalePage.jsx:28-40 | the reset quantity "1" is accepted as one unit |
| RecordSale.QuantityEdgeCases | src/pages/sales/RecordSalePage.jsx:28-30 | an empty quantity is refused as 0; text that is not a number passes as NaN |
| RecordSale.SuccessAlert | src/pages/sales/RecordSalePage.jsx:38 | names the recorded item, or "Unknown" |
| RecordSale.FailureAlert | src/pages/sales/RecordSalePage.jsx:43 | the server's message, else "Failed to record sale." |
| RecordSale.RecordSalePage.constructor | src/pages/sales/RecordSalePage.jsx:6-9 | no drugs, no drug selected, quantity "1", not loading |
| RecordSale.RecordSalePage.FinishLoadDrugs | src/pages/sales/RecordSalePage.jsx:13-22 | an array reply becomes the list, another reply gives an empty list, and a failure keeps the list and raises an alert |
| RecordSale.RecordSalePage.SelectDrug | src/pages/sales/RecordSalePage.jsx:62 | sets the selected drug only |
| RecordSale.RecordSalePage.SetQuantity | src/pages/sales/RecordSalePage.jsx:83 | sets the quantity text only |
| RecordSale.RecordSalePage.BeginSubmit | src/pages/sales/RecordSalePage.jsx:26-37 | a refused submit raises its alert and sends nothing; an accepted one sets `loading` and sends exactly the checked request |
| RecordSale.RecordSalePage.FinishSubmit | src/pages/sales/RecordSalePage.jsx:38-46 | success resets the drug to "" and the quantity to "1"; failure keeps both; `loading` ends false |
| RecordSale.SubmitDefaultQuantity | src/pages/sales/RecordSalePage.jsx:26-46 | a submit with a drug chosen and the default quantity sends one request for one unit and leaves the form as initialised |
| ClinicDirectory.FilteredClinics | src/components/intro.jsx:17-19 | an order-preserving subsequence of the five clinics, holding exactly those whose lower-cased name contains the lower-cased search |
| ClinicDirectory.EmptySearchListsAll | src/components/intro.jsx:9-17 | an empty search lists all five clinics in order, so "No clinics found." is not shown |
| ClinicDirectory.SearchIgnoresCase | src/components/intro.jsx:18 | a search and its lower case list the same clinics |
| ClinicDirectory.TwoClinicsInWoqooyi | src/components/intro.jsx:10-11 | two clinics' locations contain "Woqooyi" |
| ClinicDirectory.NoNameMentionsWoqooyi | src/components/intro.jsx:17-19 | no clinic's name matches "Woqooyi" |
| ClinicDirectory.LocationIsNotSearched | src/components/intro.jsx:17-19 | searching "Woqooyi" finds no clinic and shows "No clinics found." (locations are not searched) |
| ClinicDirectory.ClinicLinksShowLoginPage | src/components/intro.jsx:50 | a clinic card's link `/clinic/<id>` matches no route, so the route table selects the fallback login page whatever the session |
| ClinicDirectory.FollowClinicLink | src/components/intro.jsx:50 | following the link shows the login page, whose redirect effect then navigates to "/center" exactly when a user is signed in |

## Left out

- HTTP transport, including the request URLs of the sales, patient and pharmacy calls. Each call is an input reply: a body, or an error with its message.
- Percent-encoding of query values (the x-www-form-urlencoded serializer of the WHATWG URL Standard, section 5.2): a query is its ordered key/value pairs.
- Toasts, `alert` and `console` output of the sales dashboard and the patient directory. `window.confirm` is a boolean input. The login page's toasts and the record-sale alerts are kept as logs.
- View markup and styling: charts, `toFixed` profit formatting, `formatDate`, the patient details row, and the edit dialog (`PatientDialogForm` is not part of this model). Also `Header.jsx`, `Center.jsx` (its logout button only navigates), `dashboard.jsx`, `App.jsx` and the build configuration.
- React's scheduling and StrictMode double invocation. Each effect run, cleanup and reply completion is an explicit method call in an order the caller picks.
- Interleavings inside the sales dashboard: `LoadData` takes its five replies together, and a load racing a delete's refresh is not modelled.
- Session.AfterRestore: the logout is scheduled at the stored expiry whatever the remaining time. Browsers run a `setTimeout` whose delay exceeds 2^31-1 ms at once, which would log out a session with more than about 24.8 days left immediately.
- Session.SessionProvider.RestoreEffect: requires that no timer be pending, because React runs the previous cleanup before re-running the effect. A restore over a live timer is not modelled.
- Session.UserRecord: the user is always present and stored as opaque JSON text. A falsy `userData` (`null`, `false`, `0` or `""`) is not modelled: `JSON.stringify` writes the truthy text "null", "false", "0" or `""` (two quote marks), while `login` sets the in-memory user to that falsy value beside a set token, so `Session.OperationsKeepPaired` does not cover it. An `undefined` `userData` is not modelled either.
- Session.AfterRestore: the stored user text is adopted as it is. `JSON.parse` throws on text that is not JSON (such as "undefined", which `localStorage` keeps for an `undefined` user), and that exception escapes the effect; the model does not capture the throw.
- `setUser`, which the provider also exposes, is not modelled: it sets the user without touching the token, so it could break the pairing `Session.OperationsKeepPaired` states. None of the modelled components calls it.
- NumberText.ParseIntRoundTrip: holds for the model's unbounded integers. JavaScript numbers are exact integers only up to 2^53 in magnitude, `toString` writes exponent notation ("1e+21") from 10^21 on, which `parseInt` reads back as 1, and a fractional `expiresIn` makes the expiry a fraction. The round trip of the expiry is claimed for safe integers only.
- NumberText.ParseInt: covers an optional sign followed by decimal digits. Leading whitespace and a `0x` prefix are not modelled.
- NumberText.NumberOf: integer text only. Decimals, exponents, whitespace and `Infinity` read as NaN, whereas `Number` gives a number. So a quantity such as "-0.5" passes `RecordSale.CheckSubmission` in the model but is refused by the form.
- RecordSale.CheckSubmission: a NaN quantity is carried as NaN. `JSON.stringify` would send it as `null`.
- LoginPage.FinishSubmit: the in-memory token is the lifetime's decimal text, not the number itself. The two differ only in the dashboard hook's truthiness test, for a lifetime of 0.
- LoginPage.FailureText: the server's response data is taken as text. An object body is not modelled.
- Common.Lower: ASCII case folding only. Unicode `toLowerCase` is not modelled.
- SalesDashboard: the profit replies arrive already defaulted to 0 when missing. Profits are exact reals, not floating point.

## Findings

| source | as written | input that shows it | evidently intended | confidence | as-written member | corrected member |
|---|---|---|---|---|---|---|
| src/hooks/useUser.jsx:43-44 | the live-session branch of the restore effect returns its cleanup before `setLoading(false)` at line 49, and nothing else clears `loading` | reload with `user`, `token` and `expirationTime` stored and the expiry in the future: the dashboard shows "Checking authentication…" forever | clear `loading` on every branch, so the gate renders the dashboard for a live session | not executed; high | AccessGate.LiveRestoreLeavesGatePending | AccessGate.IntendedRestoreDecides |
| src/components/Login.jsx:37 | `login(data.user, data.expiresIn)` passes the lifetime as the token and leaves the lifetime undefined | any successful login, e.g. a reply with `expiresIn` 3600: the stored token is "3600", the stored expiry is "NaN", and the next reload purges the session | `login(data.user, data.token, data.expiresIn)` | not executed; medium (the reply's token field name is assumed) | LoginPage.AsWrittenLoginNeverSurvivesReload | LoginPage.IntendedLoginSurvivesReload |
