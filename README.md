# ElectriTrack controller and dashboard, modelled in Dafny

ElectriTrack is a browser dashboard. It shows an electricity reading from a
hosted real-time store, derives a bill from it, records simulated payments and
routes between hash pages (`#dashboard`, `#profile`, `#trends`, `#auth`,
`#logout`). This project models its two stateful pieces and proves properties of them:

- **Router** (`router.dfy`, main.js). A class `App` holds the URL fragment, the
  session user, `currentPage`, the page in the container, the active nav links,
  the nav chrome, the auth-form state and the dashboard object. Every event
  handler is a method: route change, auth-state change, nav clicks, tab switch,
  sign-in and sign-up. The route switch is also a pure function, `Decide`. A
  fragment assignment raises a pending hash-change event only when it changes
  the fragment. This is the browser's behaviour, assumed and not part of the
  code. `Settle` is the event loop that dispatches those events.
- **Dashboard** (`dashboard.dfy`, consumption.js). A class `DashboardView` holds
  the `consumptionListener` handle, the set of subscriptions open at the store,
  the displayed fields, the connection status, the pay button, the in-flight
  payment and the store's payment log. The snapshot and error callbacks,
  `setDefaultBill`, `displayNoData` and the payment flow are methods that
  overwrite those fields step by step.
- **Readings** (`readings.dfy`, consumption.js). These are the pure derivations:
  normalising a reading with JavaScript truthiness fallbacks, the bill and
  usage formulas, the demo default and the status indicator. Numbers are
  `real`, so 45.5 × 12.50 = 568.75 exactly.
- **QuickActions** (`quickactions.dfy`, consumption.js). These are the CSV
  export, assembled with a loop as the source does, and the usage-alert
  threshold check.
- **Session** (`session.dfy`) holds `Option`, `User` and the truthiness of an
  optional string.

The invariant that ties the two files together is `App.Valid()`. The dashboard
listener is live only while `currentPage` is the dashboard, and it is then the
only open subscription (`AtMostOneSubscription`). Every event method preserves
it. `HandleRouteChange` also ensures that the subscription open before the
event is closed afterwards (`old(dash.live) !! dash.live`), and that a
subscription is open afterwards exactly when the decision was to render the
dashboard.

Three behaviours of the code worth knowing:
- A signed-in user who navigates to `#auth` sees the auth page (`Decide`).
  Only the auth-state observer sends such a user to `#dashboard`.
- `#logout` renders nothing and keeps `currentPage`. The case `break`s out of
  the switch, though, so `updateActiveNavigation("#logout")` still runs and
  clears every active link (HandleRouteChange's `Inert` case).
- On a failed sign-up no field is cleared; a successful one clears all four
  (`HandleSignUp`).

## Model

| member | source | states |
|---|---|---|
| Readings.ConsumptionProp | consumption.js:183 | for every three property values, the chain's result is the first truthy of kwh, consumption and value (FirstTruthy), else the number 0; a zero number only when none of them is truthy |
| Readings.RateProp | consumption.js:184 | for every two property values, the chain's result is the first truthy of price and rate (FirstTruthy), else 12.50; a chosen numeric rate is never 0 |
| Readings.ObjectReadingPair | consumption.js:182-194 | for every object reading: it displays exactly when the first truthy consumption (else 0) and the first truthy rate (else 12.50) are both numbers, and then with those two numbers; the rate is never 0 |
| Readings.DisplayPair | consumption.js:178-194 | a number n gives (n, 12.50); null, undefined and other non-objects give (0, 12.50); for an object, None exactly when the chosen consumption or the chosen rate is not a number, otherwise the two chosen numbers; the rate is never 0 |
| Readings.BillPair | consumption.js:218-220 | calculateBill's own expressions give the same pair as displayConsumptionData for every non-null reading that was displayed |
| Readings.ZeroPriceFallsBack | consumption.js:184 | a zero price becomes the default rate 12.50 |
| Readings.TextConsumptionIsRejected | consumption.js:199-206 | a non-number consumption makes display fail (`toFixed` throws) |
| Readings.RawBill | consumption.js:222-231 | amount = energy charge = consumption × rate; fee and tax 0; non-negative inputs give a non-negative bill; zero exactly when a factor is 0 |
| Readings.DemoDefaults | consumption.js:235-260 | the demo reading 45.5 @ 12.50 gives bill 568.75, today 36.4, month 1137.5 |
| Readings.StatusText | consumption.js:272-285 | connecting→"Connecting...", connected→"Live", no-data→"No Data", error→"Error", each both ways |
| Readings.StatusClass | consumption.js:270 | the class is `status-indicator ` followed by exactly the status name |
| Readings.StatusClassInjective | consumption.js:265-286 | distinct statuses give distinct classes |
| Dashboard.ReadingDisplay | consumption.js:198-231 | after a reading (c, r): bill and energy charge c×r, fee and tax 0, today c×0.8, month c×25 |
| Dashboard.DefaultIsDemoReading | consumption.js:235-261 | the fields setDefaultBill writes equal the display of the reading 45.5 kWh at 12.50 |
| Dashboard.PayErrorText | consumption.js:341-401 | each check's own message ("No amount to pay or invalid amount", "Payment cancelled by user", "User not authenticated. Please sign in again."); never empty: a store failure shows its own message, or "Payment failed. Please try again." when that message is empty |
| Dashboard.RefusalMessage | consumption.js:394-403 | a refusal whose text is the cancellation text (the confirm check, or a store failure carrying exactly that text) shows the neutral "Payment cancelled"; every other refusal shows PayErrorText of its error with the error class |
| Dashboard.CheckBeforeDelay | consumption.js:341-350 | the amount check runs before the confirmation; both pass exactly when amount > 0 and the user confirmed |
| Dashboard.PaymentCheck | consumption.js:336-360 | the order amount, confirmation, user; approval exactly when all three pass, with the payer the session user |
| Dashboard.RecordFor | consumption.js:362-376 | the record goes to `payments/<uid>` with amount = bill, currency "PHP", status "completed", method "credit_card" |
| Dashboard.DashboardView.constructor | consumption.js:4 | no listener and no open subscription at first |
| Dashboard.DashboardView.UpdateConnectionStatus | consumption.js:265-286 | the last call decides the status |
| Dashboard.DashboardView.Render | consumption.js:7-124 | the template's placeholders and zero bill, status connecting, then a fresh subscription tracked by the handle |
| Dashboard.DashboardView.LoadConsumptionData | consumption.js:139-147 | status connecting; a new subscription is opened and overwrites the handle |
| Dashboard.DashboardView.CleanupConsumptionListener | consumption.js:556-561 | cancels the tracked subscription once and clears the handle; with no handle it does nothing |
| Dashboard.DashboardView.DisplayConsumptionData | consumption.js:178-215 | writes the normalised consumption, rate, today and month; fails exactly when DisplayPair does, after writing no rate or usage field |
| Dashboard.DashboardView.CalculateBill | consumption.js:218-232 | the bill fields become RawBill of the reading's pair |
| Dashboard.DashboardView.SetDefaultBill | consumption.js:235-262 | the displayed fields become the demo display (45.5, 12.50, 568.75, 36.4, 1137.5) |
| Dashboard.DashboardView.DisplayNoData | consumption.js:289-298 | the placeholders and "No data available" |
| Dashboard.DashboardView.DisplayError | consumption.js:301-307 | only the consumption field changes, to the error mark |
| Dashboard.DashboardView.OnSnapshot | consumption.js:147-167 | a cancelled subscription changes nothing; null or undefined gives no-data and the demo bill; a displayable reading gives connected and its bill; a processing failure gives error and changes only the consumption field |
| Dashboard.DashboardView.OnSubscriptionError | consumption.js:168-174 | status error, and the demo bill overwrites the error mark |
| Dashboard.DashboardView.ClickPay | consumption.js:321-351 | a disabled button takes no click; otherwise the button is disabled and the amount and confirmation checks run; a refusal re-enables it at once |
| Dashboard.DashboardView.CompletePayment | consumption.js:352-409 | the user check; a record is appended only when a user is present and the store accepts it, and then one bill reset is scheduled; each refusal shows RefusalMessage of its error; the button is enabled again on every path, with the bill not yet reset |
| Dashboard.DashboardView.ResetBill | consumption.js:384-391 | a scheduled reset zeroes the bill and shows the banner |
| Dashboard.DashboardView.CompletePaymentIntended | consumption.js:352-409 | the same outcome and record as CompletePayment, with the bill already zero when the button is enabled again |
| Dashboard.DashboardView.ProcessPayment | consumption.js:321-410 | a whole payment's outcome is PaymentCheck's, except that an approved payment the store rejects is refused with the store's failure; a record is appended exactly on approval, then the bill is zero; a refusal keeps the bill and shows RefusalMessage of its error |
| Dashboard.PaidBillCannotBePaidAgain | consumption.js:384-388 | after the reset, the next payment is refused on the amount |
| Dashboard.DoublePaymentAsWritten | consumption.js:384-409 | two confirmed clicks with the reset still pending record the demo bill twice |
| Dashboard.NoDoublePaymentIntended | consumption.js:384-409 | with the reset before re-enabling, the same two clicks record the bill once and refuse the second on the amount |
| QuickActions.BuildCsv | consumption.js:477-480 | the text is the header line `Field,Value` followed by each row comma-joined and newline-terminated |
| QuickActions.CsvLineCount | consumption.js:477-480 | for rows with no newline in any field, the file has exactly one line per row plus the header; the consumption field of a real export is not such a field (see Findings) |
| QuickActions.CsvTextNewlines | consumption.js:477-480 | every line break of the file is a row end, the header's end, or a newline inside a field |
| QuickActions.ConsumptionText | consumption.js:199-202 | the consumption card's text is a line break and four spaces, the value, a line break and four spaces, the unit, then a line break and two spaces |
| QuickActions.ConsumptionTextNewlines | consumption.js:199-202 | that text holds exactly three line breaks when the value and unit hold none |
| QuickActions.ExportSpansExtraLines | consumption.js:467-480 | as written, an export of single-line texts has 10 line breaks for its 7 rows: the consumption row spans four lines |
| QuickActions.IntendedExportLineCount | consumption.js:467-480 | with the consumption figure alone in its field, the export has exactly 7 lines |
| QuickActions.DatePart | consumption.js:488 | the first 10 characters of the ISO timestamp (all of it if shorter) |
| QuickActions.ExportFileName | consumption.js:488 | `ElectriTrack_Consumption_` + date part + `.csv` |
| QuickActions.ExportRows | consumption.js:467-475 | six rows in the source's order, each its label and the text read for it |
| QuickActions.ExportData | consumption.js:459-495 | no user: only "Please sign in to export data"; otherwise the file name from the second clock reading, the CSV of the rows (with the first clock reading and the consumption card's whole text), and the completion notice |
| QuickActions.UsageAlert | consumption.js:497-520 | no user: only the message "Please sign in to set usage alerts"; a non-empty, numeric, positive answer is accepted with that threshold; a cancelled prompt is silent; anything else gets the "valid positive number" message |
| QuickActions.EmptyAnswerIsInvalid | consumption.js:517-519 | an empty answer is not a cancellation |
| Router.Effective | main.js:140 | an empty fragment is read as `#dashboard` |
| Router.Decide | main.js:147-195 | a rendered page matches the fragment; with a user every page's fragment renders that page, and `#auth` renders for everyone; only `#auth` renders without a user; exactly `#logout` is inert; redirects go to `#auth` or, with a user, `#dashboard` |
| Router.ProtectedRoutesNeedUser | main.js:148-177 | without a user, `#dashboard`, `#profile` and `#trends` redirect to `#auth` |
| Router.EmptyIsDashboard | main.js:140 | the empty fragment routes as `#dashboard` |
| Router.UnknownRoutesRedirect | main.js:186-194 | an unknown fragment redirects to `#dashboard` with a user, else `#auth` |
| Router.AuthRouteRendersForSignedInUser | main.js:178-181 | the route switch renders `#auth` even for a signed-in user |
| Router.RedirectsDoNotChain | main.js:148-194 | every redirect target renders directly under the same session and differs from the redirected fragment |
| Router.Resolve | main.js:148-194 | the fragment routing ends on is never redirected again |
| Router.AfterAuth | main.js:33-53 | a user on `#auth`, `""` or `#` goes to `#dashboard`; no user goes to `#auth`; otherwise the fragment is kept |
| Router.AuthRedirectIdempotent | main.js:33-53 | applying the auth-state rule twice equals applying it once |
| Router.AuthChangeThenRoute | main.js:39-51 | after a sign-out the auth page renders; after a sign-in from `#auth`/`""`/`#` the dashboard renders |
| Router.ActiveLinks | main.js:202-223 | at most one active link, exactly the matching one for the four known fragments, none otherwise |
| Router.ClickTarget | main.js:88-136 | without a user every click goes to `#auth`; with one a protected link goes to its target; the auth link goes to `#auth` unless a logout fails; only a failed logout assigns nothing |
| Router.LocalPart | main.js:72 | a prefix of the email with no `@`, ending at the first `@` when there is one |
| Router.UserName | main.js:72 | the display name if truthy, otherwise the email text before the first `@` |
| Router.ChromeFor | main.js:56-85 | with a user: Logout/`#logout`, the protected links shown, the greeting; without: Sign In/`#auth`, hidden, no greeting |
| Router.PasswordCheck | main.js:433-436 | "Passwords do not match" exactly when the two passwords differ |
| Router.App.constructor | main.js:7-9 | no user and no current page; no subscription |
| Router.App.AssignHash | main.js:25-26 | the fragment is set; an event is pending exactly when it changed (or one already was) |
| Router.App.CleanupCurrentPage | main.js:463-467 | cancels the listener exactly when the current page is the dashboard; afterwards no subscription is open |
| Router.App.UpdateActiveNavigation | main.js:202-223 | the active links become ActiveLinks of the fragment |
| Router.App.RenderDashboardPage | main.js:226-229 | current page dashboard; the only render that opens a subscription; the cards show the template's placeholders and zero bill (consumption.js:7-124) with status connecting, an enabled button and no message, while a pending bill reset and the banner carry over |
| Router.App.RenderProfilePageWrapper | main.js:232-235 | current page profile |
| Router.App.RenderTrendsPageWrapper | main.js:238-247 | current page trends at once; the view is left to the module import |
| Router.App.TrendsModuleLoaded | main.js:241-242 | a resolved import renders the trends view |
| Router.App.TrendsModuleFailed | main.js:243-246 | a failed module load assigns `#dashboard` |
| Router.App.RenderAuthPage | main.js:250-325 | current page auth; the sign-in form and tab shown, errors and inputs empty |
| Router.App.RenderPage | main.js:147-181 | the wrapper for the decided page: it becomes the current page, and the view for every page but trends; a subscription is open afterwards exactly for the dashboard; the auth forms change only for the auth page, where only the empty sign-in form shows, and the dashboard's fields only for the dashboard, which shows its template with status connecting |
| Router.App.HandleRouteChange | main.js:139-199 | cleanup first; render sets page and active link; redirect changes only the fragment (and raises an event); `#logout` keeps the page and clears the active links; the notice is kept; the auth forms change only on an auth render, which shows the empty sign-in form alone; the dashboard's fields change only on a dashboard render, which shows the template with status connecting; the old subscription is closed |
| Router.App.InitializeApp | main.js:12-30 | the initial route is evaluated directly, with HandleRouteChange's outcome: a render sets the page and active link, a redirect changes only the fragment and raises an event, `#logout` keeps the page and clears the active links; the notice, the auth forms and the dashboard's fields are kept except on their own page's render, which leaves them as the template shows them |
| Router.App.DispatchHashChange | main.js:25-26 | a pending event clears the flag and runs the route change once; with none pending, nothing changes |
| Router.App.Settle | main.js:139-199 | at most two route evaluations per assignment; after a pending event it ends on the resolved fragment in the Settled state: the fragment's links active (none for `#logout`), its page current and shown (trends waits for its import), the auth forms fresh only after an auth render and the dashboard showing its template only after a dashboard render, everything else kept, and a subscription open exactly for the dashboard; with no event pending nothing changes |
| Router.App.Navigate | main.js:139-199 | a new fragment (or a pending event) settles within two evaluations on the resolved fragment in Settle's Settled state; the same fragment with nothing pending changes nothing; the session, chrome, notice and payment log are kept |
| Router.App.UpdateNavigation | main.js:56-85 | the chrome becomes ChromeFor of the session |
| Router.App.HandleAuthStateChange | main.js:16-20 | the session is stored, the chrome updated and the fragment becomes AfterAuth |
| Router.App.ClickNav | main.js:88-136 | the fragment becomes ClickTarget; a failed logout keeps it and shows the alert |
| Router.App.SwitchAuthTab | main.js:346-367 | exactly one form visible, its tab active, both error texts cleared |
| Router.App.HandleSignIn | main.js:370-409 | a service error is shown and the inputs kept; success clears the inputs |
| Router.App.HandleSignUp | main.js:412-460 | the identity service is called exactly when the passwords match; a mismatch shows "Passwords do not match" |
| Router.AtMostOneSubscription | main.js:463-467 | under the controller's invariant at most one subscription is open, and only with the dashboard current |

## Left out

- Backend calls. The store subscription (`onValue`), `push`, `auth.currentUser`, `loginUser`, `registerUser` and `logoutUser` are not modelled. They appear as inputs and events instead: a snapshot value or an error per subscription handle, a session user, a store failure message, and a logout success flag.
- HTML templates and DOM lookups. Only the logical values the fields hold are kept.
- Number formatting and parsing. `toFixed(2)` rounding, `parseFloat`/`isNaN` and infinite values are not modelled. A NaN property of a reading object is falsy (`PNaN`); a NaN or infinite top-level reading is not modelled. Displayed numbers are reals, and the alert's `isNaN`/`parseFloat` results are inputs.
- Dashboard.DashboardView.ClickPay: the amount check is `amount <= 0` on the bill value. The text checks (`""`, `"0.00"`) and parsing are not modelled, so an amount that `toFixed` would round to `"0.00"` counts as positive here. NaN is not modelled either.
- Clock and randomness. Timestamps, `toLocaleString`, the transaction id (an opaque input) and `generateMockHistory`/`loadUsageHistory` all depend on the clock or `Math.random`. The export reads the clock twice (consumption.js:470 and 488); `ExportData` takes the two ISO timestamps as separate inputs.
- `window.currentConsumptionData` is not modelled. It is written and never read by the modelled code.
- Timers and async ordering. The 2 s payment delay is the gap between `ClickPay` and `CompletePayment`. The 1 s bill reset is its own event, `ResetBill`, and a pending reset survives a re-render. When the timer fires after the user has left the dashboard, the source's callback finds no bill element and throws, so no banner appears; `ResetBill` still zeroes the bill and shows the banner. The browser queues one `hashchange` event per fragment change, while `AssignHash` keeps a single pending flag: several changes before one dispatch (a redirect to `#auth` followed by the auth observer's `#dashboard`, say) give one route evaluation in the model and two in the browser. The removal of the 3 s banner is not modelled. The loading spinners of the auth buttons are not modelled.
- Dashboard.DashboardView.Render: a payment still waiting for its delay when the dashboard is rendered again is dropped. In the source, the old continuation still records it. This is async interleaving, which is left out.
- Dashboard.DashboardView.ProcessPayment: it composes the payment with the corrected completion (see Findings), i.e. with the reset firing before anything else; the as-written window is shown by `DoublePaymentAsWritten`.
- QuickActions.ConsumptionText: it uses the four-space indentation of the writes at consumption.js:199-202, 241-244, 290-293 and 302-305. The page template (consumption.js:28-31) indents more deeply; its text has the same three line breaks.
- The trends and profile modules. They are not part of the model, apart from the trends import's two outcomes (`TrendsModuleLoaded`, `TrendsModuleFailed`).
- `viewTrends` and the text of every alert other than logout, export and alert messages. They only show messages.
- Browser side effects. Blob/URL download, `confirm`/`prompt` UI (the answers are inputs) and console logging are not modelled.
- `trim()` of the sign-up and sign-in inputs is not modelled. It only affects the values handed to the identity service.
- `location.hash` is taken literally as a string. The browser reports a bare `#` as `""`; the model keeps `#` as its own fragment, as the code's checks do.

## Findings

| source | as written | input that shows it | evidently intended | confidence | as-written member | corrected member |
|---|---|---|---|---|---|---|
| consumption.js:471 | the consumption row exports the card's `textContent`, which holds the value span and the unit span on separate indented lines | any export of single-line texts, e.g. after the demo bill (value `45.50`, unit `kWh`): 10 line breaks for 7 rows, the consumption row broken over four lines | the consumption figure alone in its field, one line per row | high, not executed | QuickActions.ExportSpansExtraLines | QuickActions.IntendedExportLineCount |
| consumption.js:384-409 | the `finally` enables the pay button at once, while the bill reset waits 1 s on a timer | a second confirmed click in that second after paying the demo bill of 568.75: a second record of 568.75 | the bill reset before the button can be clicked again | medium, not executed | Dashboard.DoublePaymentAsWritten | Dashboard.NoDoublePaymentIntended |
