# Track-itt mobile app: screen logic and session handling in Dafny

Track-itt is a React Native inventory-tracking app. This project models the app's own
logic, which sits between the UI components and the REST backend:

- **Transaction history.** The screen narrows a list of transfer records with
  case-insensitive substring filters on `from`, `to` and `status`. A toggle adds a
  sent/received mode. Location pickers fill the two location filters. A dialog
  completes a received transfer once an employee ID is entered (`TransactionHistory`).
- **Dashboard.** Chart rows are reshaped for a pie chart and a line chart. The invoice
  table's pagination control sets `currentPage`, and every change of page refetches the
  screen, which replaces `totalPages`. The fetch sets the loading and error flags. The
  screen also defines `handleNextPage` and `handlePrevPage`, but no control calls them
  (`Dashboard`).
- **HTTP client session.** `setAuthToken` keeps the persisted `token` key and the
  default `Authorization` header in step. A request interceptor adds `Bearer <token>`
  to every request while a token is stored (`Api`).
- **Form screens.**
  - Sign-up validates four fields, registers the user, stores the returned token and
    replaces the screen with the home tabs (`SignUp`).
  - Send-items (`SendItems`) and add-product (`AddProduct`) check that every field is
    filled, show a green or red snackbar, and go back after its timer.
  - Receive-items retrieves a transfer record and completes it once an employee ID is
    entered (`ReceiveItems`).

The JavaScript behaviour the screens rely on is in `JsText`: string truthiness,
`toLowerCase` and `includes`. Values shared by the screens are in `Ui`: optional
values, navigation calls, alerts, snackbar timers and picker entries.

Each screen is a class whose fields are the screen's state variables. Its handlers
are methods that change those fields. Side effects are recorded in fields:

- snackbar message, colour and visibility;
- the navigation calls made;
- the alerts shown;
- the `setTimeout` callbacks waiting to run.

A screen's timers all share one delay, so they run in the order they were scheduled.
`RunTimer` runs the oldest one. Sign-up awaits the backend, so its handler is split in
two:

- `HandleSignUp` runs up to the `await`.
- `RegisterSettled` runs once the call settles, with the outcome as an input.

The HTTP client is a class holding three maps:

- the device store;
- the default common headers;
- the headers given when the client was created.

A registration whose response has no `token` calls `setAuthToken(undefined)`, which
removes any stored token (`SignUpScreen.js:43`, `api.js:42-45`); see
`SignUp.Screen.RegisterSettled`.

## Model

| member | source | states |
|---|---|---|
| JsText.ToLower | Track-itt-mobile-app/src/screens/TransactionHistoryScreen.js:91-93 | lower-casing keeps the length and folds every character (ASCII) |
| JsText.ToLowerIdempotent | Track-itt-mobile-app/src/screens/TransactionHistoryScreen.js:91-93 | lower-casing an already lower-cased string changes nothing |
| JsText.IncludesAt | Track-itt-mobile-app/src/screens/TransactionHistoryScreen.js:91-93 | `includes` holds exactly when the substring occurs at some index |
| JsText.IncludesEmptyAndSelf | Track-itt-mobile-app/src/screens/TransactionHistoryScreen.js:91-93 | every string includes `''` and itself |
| JsText.Includes | Track-itt-mobile-app/src/screens/TransactionHistoryScreen.js:91-93 | `includes`: the empty string and every prefix are included, and an included string is never longer than the one including it; `IncludesAt` characterizes it exactly as an occurrence at some index |
| JsText.IncludesIgnoringCase | Track-itt-mobile-app/src/screens/TransactionHistoryScreen.js:91-93 | `field.toLowerCase().includes(filter.toLowerCase())`: an empty filter and a filter equal to the field ignoring case are included; an included filter is never longer than the field |
| JsText.NotIncludedAcrossGap | Track-itt-mobile-app/src/screens/TransactionHistoryScreen.js:91-92 | a string does not include a substring if every window it could occupy covers a character the substring lacks |
| JsText.NotIncludedIgnoringCase | Track-itt-mobile-app/src/screens/TransactionHistoryScreen.js:91-93 | ignoring case, a string does not include a substring if every window it could occupy covers a character that, lower-cased, matches none of the substring's |
| Ui.Caption | Track-itt-mobile-app/src/screens/TransactionHistoryScreen.js:110 | an empty value shows the placeholder; otherwise the caption is `undefined` exactly when no entry holds the value, and else the label of an entry holding it |
| Ui.Join | Track-itt-mobile-app/src/screens/TransactionHistoryScreen.js:68 | `join` of no parts is `''`; otherwise its length is the parts' lengths plus one separator between each pair, and it starts with the first part followed by the separator |
| Ui.JoinSingle | Track-itt-mobile-app/src/screens/TransactionHistoryScreen.js:68 | one part is joined to itself, with no separator |
| Ui.JoinAppend | Track-itt-mobile-app/src/screens/TransactionHistoryScreen.js:68 | joining a concatenation joins each half with one separator between them; with `JoinSingle` this fixes `join` on every list as the parts in order with the separator between neighbours |
| Ui.FindLabel | Track-itt-mobile-app/src/screens/TransactionHistoryScreen.js:110 | `find(...)?.label` gives the label of the first entry holding the value, or `undefined` exactly when no entry holds it |
| TransactionHistory.FieldMatches | Track-itt-mobile-app/src/screens/TransactionHistoryScreen.js:90-96 | an empty filter matches every field; a filter longer than the field never matches; a filter equal to the field ignoring case matches |
| TransactionHistory.Keeps | Track-itt-mobile-app/src/screens/TransactionHistoryScreen.js:90-96 | with no filter every record is kept; a kept record has the flag its `sent`/`received` mode names and contains each non-empty filter in its field, ignoring case |
| TransactionHistory.Filter | Track-itt-mobile-app/src/screens/TransactionHistoryScreen.js:89-97 | the filtered list is no longer than the history, and every record in it is from the history and passes every filter |
| TransactionHistory.FilterWithoutCriteria | Track-itt-mobile-app/src/screens/TransactionHistoryScreen.js:50-53 | with every filter at its initial `''`, all records are listed in their original order |
| TransactionHistory.FilterIsSubsequence | Track-itt-mobile-app/src/screens/TransactionHistoryScreen.js:89 | the filtered list is an order-preserving subsequence of the history |
| TransactionHistory.SubsequenceShorter | Track-itt-mobile-app/src/screens/TransactionHistoryScreen.js:89 | a subsequence is never longer than its sequence |
| TransactionHistory.FilterCounts | Track-itt-mobile-app/src/screens/TransactionHistoryScreen.js:89-97 | a record appears as often as in the history if it passes all filters, and otherwise not at all |
| TransactionHistory.FilterMembership | Track-itt-mobile-app/src/screens/TransactionHistoryScreen.js:91-95 | a record is listed iff it is in the history, each non-empty location/status filter is a case-insensitive substring of its field, and the sent/received mode's flag holds |
| TransactionHistory.StricterCriteriaNarrow | Track-itt-mobile-app/src/screens/TransactionHistoryScreen.js:90-96 | criteria that keep fewer records give a subsequence of the listing |
| TransactionHistory.FillingFiltersNarrows | Track-itt-mobile-app/src/screens/TransactionHistoryScreen.js:90-96 | filling an empty filter or turning on the mode never enlarges the listing |
| TransactionHistory.NextMode | Track-itt-mobile-app/src/screens/TransactionHistoryScreen.js:133 | the toggle gives `received` exactly from `sent`, and `sent` from anything else, including the initial `''` |
| TransactionHistory.ToggleAlternates | Track-itt-mobile-app/src/screens/TransactionHistoryScreen.js:133 | after one press the mode is never `''` again and alternates with each press |
| TransactionHistory.ModeButtonText | Track-itt-mobile-app/src/screens/TransactionHistoryScreen.js:136 | the caption reads "Filter Sent By Me" in `sent` mode and "Filter Received By Me" in any other mode, including the initial `''` |
| TransactionHistory.ShowsCompleteButton | Track-itt-mobile-app/src/screens/TransactionHistoryScreen.js:162 | Complete is offered iff the record was received by this user and its receiver ID is null or empty |
| TransactionHistory.CompleteButtonOnDummyData | Track-itt-mobile-app/src/screens/TransactionHistoryScreen.js:8-36 | of the listed records only the pending one offers Complete |
| TransactionHistory.LocationValuesDistinct | Track-itt-mobile-app/src/screens/TransactionHistoryScreen.js:37-44 | the picker entries hold distinct values |
| TransactionHistory.LocationButtonText | Track-itt-mobile-app/src/screens/TransactionHistoryScreen.js:110-118 | the From/To caption is the placeholder for an empty filter, the picked entry's label, or `undefined` for an unlisted value |
| TransactionHistory.SpacedLabelLacksValue | Track-itt-mobile-app/src/screens/TransactionHistoryScreen.js:8-44 | a label with a space one character from its end does not include a space-free value one character shorter |
| TransactionHistory.DummyDataShapes | Track-itt-mobile-app/src/screens/TransactionHistoryScreen.js:8-44 | picker values are ten space-free characters; record locations are eleven with a space at index 9 |
| TransactionHistory.PickedLocationHidesEveryRecord | Track-itt-mobile-app/src/screens/TransactionHistoryScreen.js:80-97 | as written, picking any location in either picker empties the listing |
| TransactionHistory.LabelFor | Track-itt-mobile-app/src/screens/TransactionHistoryScreen.js:110 | a listed value maps to its entry's label; any other text maps to itself |
| TransactionHistory.IntendedCriteria | Track-itt-mobile-app/src/screens/TransactionHistoryScreen.js:89-92 | corrected: a location filter holding a listed value becomes that entry's label; an unlisted or empty filter is kept as it is; status and mode are unchanged |
| TransactionHistory.PickedLocationKeepsItsRecords | Track-itt-mobile-app/src/screens/TransactionHistoryScreen.js:91 | corrected: a record whose location is the picked entry's label passes that filter |
| TransactionHistory.WarehouseBLacksWarehouseA | Track-itt-mobile-app/src/screens/TransactionHistoryScreen.js:10-23 | "Warehouse B" does not include "Warehouse A", ignoring case |
| TransactionHistory.IntendedWarehouseA | Track-itt-mobile-app/src/screens/TransactionHistoryScreen.js:38 | corrected: picking `warehouseA` filters by "Warehouse A" |
| TransactionHistory.PickingWarehouseAListsItsRecord | Track-itt-mobile-app/src/screens/TransactionHistoryScreen.js:89-97 | corrected: picking Warehouse A lists exactly the record shipped from it |
| TransactionHistory.Screen.constructor | Track-itt-mobile-app/src/screens/TransactionHistoryScreen.js:50-59 | every filter, the employee ID and the picker type start empty; dialog and picker closed; no selection |
| TransactionHistory.Screen.HandleCompleteTransaction | Track-itt-mobile-app/src/screens/TransactionHistoryScreen.js:61-64 | selects the record and opens the dialog, leaving the filters alone |
| TransactionHistory.Screen.ConfirmCompleteTransaction | Track-itt-mobile-app/src/screens/TransactionHistoryScreen.js:66-73 | the dialog closes iff an employee ID was entered; the success alert names the products joined by ", ", otherwise the error alert is shown |
| TransactionHistory.Screen.DismissDialog | Track-itt-mobile-app/src/screens/TransactionHistoryScreen.js:201-216 | Cancel and dismissal close the dialog |
| TransactionHistory.Screen.SetEmployeeId | Track-itt-mobile-app/src/screens/TransactionHistoryScreen.js:207 | typing sets the employee ID |
| TransactionHistory.Screen.SetFilterStatus | Track-itt-mobile-app/src/screens/TransactionHistoryScreen.js:126 | typing sets the status filter |
| TransactionHistory.Screen.HandleOpenModal | Track-itt-mobile-app/src/screens/TransactionHistoryScreen.js:75-78 | opens the picker for the given filter |
| TransactionHistory.Screen.CloseModal | Track-itt-mobile-app/src/screens/TransactionHistoryScreen.js:181-194 | closes the picker |
| TransactionHistory.Screen.HandleSelectValue | Track-itt-mobile-app/src/screens/TransactionHistoryScreen.js:80-87 | changes only `filterFrom` for `from`, only `filterTo` for `to`, nothing otherwise, and always closes the picker |
| TransactionHistory.Screen.ToggleSentOrReceived | Track-itt-mobile-app/src/screens/TransactionHistoryScreen.js:133 | the mode becomes the toggle's next mode, never `''` |
| TransactionHistory.Screen.FilteredTransactions | Track-itt-mobile-app/src/screens/TransactionHistoryScreen.js:89-97 | the listing is no longer than the history and holds exactly the history records that pass the screen's current filters |
| TransactionHistory.Screen.FromButtonText | Track-itt-mobile-app/src/screens/TransactionHistoryScreen.js:110 | "Filter From" for an empty filter, the label of the picked entry, or `undefined` for a value no entry holds |
| TransactionHistory.Screen.ToButtonText | Track-itt-mobile-app/src/screens/TransactionHistoryScreen.js:118 | "Filter To" for an empty filter, the label of the picked entry, or `undefined` for a value no entry holds |
| TransactionHistory.Screen.IntendedFilteredTransactions | Track-itt-mobile-app/src/screens/TransactionHistoryScreen.js:89-97 | corrected: a record is listed iff it is in the history and passes the filters with locations compared by label |
| Dashboard.PieSlices | Track-itt-mobile-app/src/screens/DashboardScreen.js:28-34 | same length and order as the response; name kept, population is the total, fixed legend colour and size |
| Dashboard.ReduceSales | Track-itt-mobile-app/src/screens/DashboardScreen.js:40 | the fold of no categories is its start value; with non-negative sales it never falls below the start; with all sales zero it stays at the start |
| Dashboard.TotalSalesAppend | Track-itt-mobile-app/src/screens/DashboardScreen.js:40 | the sales total of a concatenation is the sum of the totals |
| Dashboard.ReduceIsTotal | Track-itt-mobile-app/src/screens/DashboardScreen.js:40 | the `reduce` fold from `acc` adds the sum of the sales to `acc` |
| Dashboard.TotalSalesBoundsEach | Track-itt-mobile-app/src/screens/DashboardScreen.js:40 | with non-negative sales a location's point is at least each category's sales |
| Dashboard.TotalSalesNonNegative | Track-itt-mobile-app/src/screens/DashboardScreen.js:40 | non-negative sales give a non-negative point |
| Dashboard.LineLabels | Track-itt-mobile-app/src/screens/DashboardScreen.js:37 | one label per location, in order |
| Dashboard.LineTotals | Track-itt-mobile-app/src/screens/DashboardScreen.js:40 | one point per location, in order, equal to the sum of its categories' sales |
| Dashboard.LineChartOf | Track-itt-mobile-app/src/screens/DashboardScreen.js:36-44 | labels and points line up, one per location, each point the location's sales total |
| Dashboard.NextPage | Track-itt-mobile-app/src/screens/DashboardScreen.js:67-71 | `handleNextPage` moves one page on iff `currentPage < totalPages`, else stays; a page in `1..totalPages` stays in it |
| Dashboard.PrevPage | Track-itt-mobile-app/src/screens/DashboardScreen.js:73-77 | `handlePrevPage` moves one page back iff `currentPage > 1`, else stays; a page of at least 1 stays at least 1 and does not grow |
| Dashboard.Navigate | Track-itt-mobile-app/src/screens/DashboardScreen.js:67-77 | no calls leave the page alone; each call moves at most one page; calls of `handleNextPage` alone from the last page or beyond stay put |
| Dashboard.NavigationStaysInRange | Track-itt-mobile-app/src/screens/DashboardScreen.js:67-77 | from a page in `1..totalPages`, any sequence of `handleNextPage`/`handlePrevPage` calls stays in `1..totalPages`; no control calls these handlers, so this holds of the handlers, not of the screen |
| Dashboard.NextPrevRoundTrip | Track-itt-mobile-app/src/screens/DashboardScreen.js:67-77 | a permitted Next then Prev returns to the page, and vice versa |
| Dashboard.ControlPage | Track-itt-mobile-app/src/screens/DashboardScreen.js:181 | the control's page `currentPage - 1` is 0-based: non-negative exactly for a screen page of at least 1, and below the screen page |
| Dashboard.PageFromControl | Track-itt-mobile-app/src/screens/DashboardScreen.js:183 | the screen's page `page + 1` is 1-based: at least 1 exactly for a non-negative control page, and above it |
| Dashboard.ControlPageRoundTrip | Track-itt-mobile-app/src/screens/DashboardScreen.js:181-183 | the control's 0-based page and the screen's 1-based page convert back and forth exactly |
| Dashboard.Screen.constructor | Track-itt-mobile-app/src/screens/DashboardScreen.js:11-17 | loading, no error, page 1 of 1, empty data; page 1 is requested on mount |
| Dashboard.Screen.SetCurrentPage | Track-itt-mobile-app/src/screens/DashboardScreen.js:19-56 | setting the page re-requests invoices exactly when it changes |
| Dashboard.Screen.HandleNextPage | Track-itt-mobile-app/src/screens/DashboardScreen.js:67-71 | the page is `NextPage` of the old one; the range `1..totalPages` is kept; a new page is requested only when it moved |
| Dashboard.Screen.HandlePrevPage | Track-itt-mobile-app/src/screens/DashboardScreen.js:73-77 | the page is `PrevPage` of the old one; the range is kept; a new page is requested only when it moved |
| Dashboard.Screen.OnPageChange | Track-itt-mobile-app/src/screens/DashboardScreen.js:181-183 | control page `p` sets `currentPage` to `p + 1`, which the control shows as `p` again; `currentPage` lies in `1..totalPages` if and only if `0 <= p < totalPages`, which rests on the control; page `p + 1` is requested exactly when it differs from the old page |
| Dashboard.RefetchOutgrowsPages | Track-itt-mobile-app/src/screens/DashboardScreen.js:16-56 | a fetch reporting 5 pages, a move to the last page, then a refetch reporting 2 pages leaves `currentPage` 5 beyond `totalPages` 2 |
| Dashboard.Screen.FetchSettled | Track-itt-mobile-app/src/screens/DashboardScreen.js:28-51 | loading ends either way; success replaces the charts, table and page count; failure records the message and keeps the data |
| Dashboard.Screen.Rendered | Track-itt-mobile-app/src/screens/DashboardScreen.js:79-94 | spinner iff loading; otherwise the error text iff an error is set; the charts otherwise |
| Api.StorageAfter | Track-itt-mobile-app/src/services/api.js:38-46 | the store holds `token = t` for a truthy `t`, no `token` otherwise, and every other key unchanged |
| Api.CommonHeadersAfter | Track-itt-mobile-app/src/services/api.js:38-46 | the default `Authorization` is `Bearer t` for a truthy `t`, absent otherwise, and every other header unchanged |
| Api.SetAuthTokenIdempotent | Track-itt-mobile-app/src/services/api.js:38-46 | two identical `setAuthToken` calls leave the same store and headers as one |
| Api.Intercepted | Track-itt-mobile-app/src/services/api.js:16-21 | with a truthy stored token the request's `Authorization` becomes `Bearer <token>` and nothing else changes; otherwise the headers pass unchanged |
| Api.MergedHeaders | Track-itt-mobile-app/src/services/api.js:7-12 | a request starts with every common, instance and call header, the call's own winning over the instance defaults, which win over the common ones |
| Api.SentHeaders | Track-itt-mobile-app/src/services/api.js:7-21 | a truthy stored token sets `Authorization: Bearer <token>`; without one `Authorization` is present iff some layer supplies it; every other header is the merged one |
| Api.LoggedInRequestsCarryToken | Track-itt-mobile-app/src/services/api.js:15-41 | after `setAuthToken(t)` every request carries `Bearer t`, whatever its own headers |
| Api.LoggedOutRequestsCarryNoToken | Track-itt-mobile-app/src/services/api.js:15-45 | after `setAuthToken(null)` a request carries `Authorization` iff the call supplied one |
| Api.Client.constructor | Track-itt-mobile-app/src/services/api.js:5-12 | the client has the configured base URL and the persisted store; its common defaults hold only axios's default `Accept`, with no credential; it adds `Content-Type: application/json` |
| Api.Client.SetAuthToken | Track-itt-mobile-app/src/services/api.js:38-46 | store and default headers become `StorageAfter` and `CommonHeadersAfter`; the header still mirrors the store; signed in iff the token was truthy |
| Api.Client.InterceptRequest | Track-itt-mobile-app/src/services/api.js:16-21 | the interceptor's result, computed from the store, which it only reads |
| Api.Client.RequestHeaders | Track-itt-mobile-app/src/services/api.js:7-26 | a request carries `Bearer <stored token>` while signed in; when signed out it carries `Authorization` only if the defaults or the call supply one |
| Api.SessionLifecycle | Track-itt-mobile-app/src/services/api.js:7-46 | from sign-in to sign-out requests carry the token, afterwards none unless supplied, and the JSON content type and default `Accept` throughout |
| SignUp.AllFieldsFilled | Track-itt-mobile-app/src/screens/SignUpScreen.js:32 | the form proceeds iff none of the four fields is `''` |
| SignUp.FailureMessage | Track-itt-mobile-app/src/screens/SignUpScreen.js:55-57 | the server's non-empty message if there is one, else "Registration failed."; never empty |
| SignUp.Screen.constructor | Track-itt-mobile-app/src/screens/SignUpScreen.js:22-29 | all fields empty, not loading, snackbar hidden, nothing requested or scheduled |
| SignUp.Screen.SetName | Track-itt-mobile-app/src/screens/SignUpScreen.js:72 | typing sets the name |
| SignUp.Screen.SetEmail | Track-itt-mobile-app/src/screens/SignUpScreen.js:87 | typing sets the email |
| SignUp.Screen.SetPassword | Track-itt-mobile-app/src/screens/SignUpScreen.js:103 | typing sets the password |
| SignUp.Screen.SetEmployeeId | Track-itt-mobile-app/src/screens/SignUpScreen.js:118 | typing sets the employee ID |
| SignUp.Screen.HandleSignUp | Track-itt-mobile-app/src/screens/SignUpScreen.js:31-42 | an empty field gives the red "Please fill in all fields." without loading or registering; four filled fields set loading and register exactly those values |
| SignUp.Screen.RegisterSettled | Track-itt-mobile-app/src/screens/SignUpScreen.js:42-60 | success stores the returned token through `setAuthToken` and shows the green message with the timer pending; failure ends loading, shows the server's message or the fallback in red, and stores nothing; the client's base URL and instance headers never change |
| SignUp.Screen.LeaveTimerFires | Track-itt-mobile-app/src/screens/SignUpScreen.js:48-51 | loading ends and the home tabs replace the screen |
| SignUp.Screen.GoToLogin | Track-itt-mobile-app/src/screens/SignUpScreen.js:144 | the login link navigates to the login screen |
| SignUp.Screen.DismissSnackbar | Track-itt-mobile-app/src/screens/SignUpScreen.js:151 | dismissal hides the snackbar |
| SignUp.SignUpScenario | Track-itt-mobile-app/src/screens/SignUpScreen.js:31-61 | an accepted registration ends on the home tabs with the returned token stored; a rejected one stays, stores nothing and shows the failure message |
| SendItems.SendFormComplete | Track-itt-mobile-app/src/screens/SendItemsScreen.js:44 | the send proceeds iff none of the five text fields is `''` and the products are neither the initial empty list nor an empty picked value |
| SendItems.PickedProductCountsCharacters | Track-itt-mobile-app/src/screens/SendItemsScreen.js:67-103 | as written, picking Product A makes `selectedProducts.length` 8 |
| SendItems.IntendedSelection | Track-itt-mobile-app/src/screens/SendItemsScreen.js:67-76 | corrected: the selection is a list holding the chosen product, or empty for the placeholder |
| SendItems.IntendedSelectionKeepsGuard | Track-itt-mobile-app/src/screens/SendItemsScreen.js:44 | corrected: the send guard sees a product exactly when it does as written |
| SendItems.Screen.constructor | Track-itt-mobile-app/src/screens/SendItemsScreen.js:27-39 | all fields empty, no products, snackbar and picker closed, nothing scheduled |
| SendItems.Screen.HandleSendItems | Track-itt-mobile-app/src/screens/SendItemsScreen.js:43-60 | the snackbar shows in both branches; with all six fields filled, green "Items sent successfully!" with a go-back timer; otherwise red "Please fill out all fields." with a hide-only timer |
| SendItems.Screen.RunTimer | Track-itt-mobile-app/src/screens/SendItemsScreen.js:48-58 | the oldest timer hides the snackbar and goes back only after a successful send |
| SendItems.Screen.DismissSnackbar | Track-itt-mobile-app/src/screens/SendItemsScreen.js:140 | dismissal hides the snackbar |
| SendItems.Screen.HandleOpenModal | Track-itt-mobile-app/src/screens/SendItemsScreen.js:62-65 | opens the picker for the given field |
| SendItems.Screen.CloseModal | Track-itt-mobile-app/src/screens/SendItemsScreen.js:153-175 | closes the picker |
| SendItems.Screen.HandleSelectValue | Track-itt-mobile-app/src/screens/SendItemsScreen.js:67-76 | changes exactly the field named by the picker type (`warehouse`, `inventory`, `products`), nothing for other types, and always closes the picker |
| SendItems.Screen.SetDeliveredByEmployeeId | Track-itt-mobile-app/src/screens/SendItemsScreen.js:109 | typing sets the delivering employee |
| SendItems.Screen.SetReceivedByEmployeeId | Track-itt-mobile-app/src/screens/SendItemsScreen.js:117 | typing sets the receiving employee |
| SendItems.Screen.SetVehicleNumber | Track-itt-mobile-app/src/screens/SendItemsScreen.js:125 | typing sets the vehicle number |
| SendItems.Screen.WarehouseCaption | Track-itt-mobile-app/src/screens/SendItemsScreen.js:87 | "Select From Warehouse" for an empty field, the picked warehouse's label, or `undefined` for an unlisted value |
| SendItems.Screen.InventoryCaption | Track-itt-mobile-app/src/screens/SendItemsScreen.js:95 | "Select To Inventory" for an empty field, the picked inventory's label, or `undefined` for an unlisted value |
| SendItems.Screen.IntendedProductCount | Track-itt-mobile-app/src/screens/SendItemsScreen.js:73-103 | corrected: a picked product counts as one, the placeholder as none; zero exactly when the as-written count is zero |
| SendItems.Screen.ProductCount | Track-itt-mobile-app/src/screens/SendItemsScreen.js:103 | the caption's `selectedProducts.length`: the number of elements while it is the initial array, the number of characters once a picked string replaced it |
| SendItems.FilledScreen | Track-itt-mobile-app/src/screens/SendItemsScreen.js:67-103 | a form filled through the pickers is complete exactly when the vehicle number is non-empty, and shows 8 products |
| SendItems.SendScenario | Track-itt-mobile-app/src/screens/SendItemsScreen.js:43-60 | a complete form leads to the success message and one go-back; an empty vehicle number to the failure message and no navigation |
| AddProduct.AddFormComplete | Track-itt-mobile-app/src/screens/AddProductScreen.js:37 | the add proceeds iff none of the five fields is `''` |
| AddProduct.NumbersNotChecked | Track-itt-mobile-app/src/screens/AddProductScreen.js:37 | non-numeric quantity and cost pass the guard |
| AddProduct.PickerEntries | Track-itt-mobile-app/src/screens/AddProductScreen.js:146-154 | the picker lists the `''` placeholder, then the categories or the locations by type; every other entry's value is non-empty |
| AddProduct.PickedEntryCaptioned | Track-itt-mobile-app/src/screens/AddProductScreen.js:146-154 | picking any listed entry makes its button show that entry's label |
| AddProduct.Screen.constructor | Track-itt-mobile-app/src/screens/AddProductScreen.js:21-32 | all fields empty, snackbar and picker closed, nothing scheduled |
| AddProduct.Screen.HandleAddProduct | Track-itt-mobile-app/src/screens/AddProductScreen.js:36-53 | the snackbar shows in both branches; with all five fields non-empty, green "Product added successfully!" with a go-back timer; otherwise red "Please fill out all fields." with a hide-only timer |
| AddProduct.Screen.RunTimer | Track-itt-mobile-app/src/screens/AddProductScreen.js:41-51 | the oldest timer hides the snackbar and goes back only after a successful add |
| AddProduct.Screen.DismissSnackbar | Track-itt-mobile-app/src/screens/AddProductScreen.js:125 | dismissal hides the snackbar |
| AddProduct.Screen.HandleOpenModal | Track-itt-mobile-app/src/screens/AddProductScreen.js:55-58 | opens the picker for the given field |
| AddProduct.Screen.CloseModal | Track-itt-mobile-app/src/screens/AddProductScreen.js:138-156 | closes the picker |
| AddProduct.Screen.HandleSelectValue | Track-itt-mobile-app/src/screens/AddProductScreen.js:60-67 | sets `category` only for `category` and `inventoryLocation` only for `location`, always closes the picker; choosing the `''` placeholder leaves the form incomplete |
| AddProduct.Screen.CategoryCaption | Track-itt-mobile-app/src/screens/AddProductScreen.js:86 | "Select Category" for an empty field, the picked category's label, or `undefined` for an unlisted value |
| AddProduct.Screen.LocationCaption | Track-itt-mobile-app/src/screens/AddProductScreen.js:112 | "Select Inventory Location" for an empty field, the picked location's label, or `undefined` for an unlisted value |
| AddProduct.Screen.SetName | Track-itt-mobile-app/src/screens/AddProductScreen.js:76 | typing sets the name |
| AddProduct.Screen.SetQuantity | Track-itt-mobile-app/src/screens/AddProductScreen.js:92 | typing sets the quantity |
| AddProduct.Screen.SetCost | Track-itt-mobile-app/src/screens/AddProductScreen.js:101 | typing sets the cost |
| AddProduct.FilledScreen | Track-itt-mobile-app/src/screens/AddProductScreen.js:60-101 | a form filled through the text fields and pickers is complete |
| AddProduct.AddScenario | Track-itt-mobile-app/src/screens/AddProductScreen.js:36-53 | a filled form leads to the success message and one go-back; resetting the category to the placeholder leads to the failure message and no navigation |
| ReceiveItems.FirstRecord | Track-itt-mobile-app/src/screens/ReceiveItemsScreen.js:31 | `records[0]`, absent exactly for an empty list |
| ReceiveItems.Screen.constructor | Track-itt-mobile-app/src/screens/ReceiveItemsScreen.js:21-25 | no record, empty employee ID, snackbar hidden, nothing scheduled |
| ReceiveItems.Screen.ShowsCompletionControls | Track-itt-mobile-app/src/screens/ReceiveItemsScreen.js:67-100 | the details, the employee-ID field and Complete render iff a record is held |
| ReceiveItems.Screen.HandleRetrieveTransferDetails | Track-itt-mobile-app/src/screens/ReceiveItemsScreen.js:29-33 | holds the first transfer record, so the completion controls appear |
| ReceiveItems.Screen.HandleCompleteTransaction | Track-itt-mobile-app/src/screens/ReceiveItemsScreen.js:35-52 | the snackbar shows in both branches; with an employee ID, green "Transaction completed successfully!" with a go-back timer; otherwise red "Please fill out the Employee ID." with a hide-only timer |
| ReceiveItems.Screen.RunTimer | Track-itt-mobile-app/src/screens/ReceiveItemsScreen.js:40-50 | the oldest timer hides the snackbar and goes back only after a completion |
| ReceiveItems.Screen.DismissSnackbar | Track-itt-mobile-app/src/screens/ReceiveItemsScreen.js:104 | dismissal hides the snackbar |
| ReceiveItems.Screen.SetReceivedByEmployeeId | Track-itt-mobile-app/src/screens/ReceiveItemsScreen.js:80-89 | typing sets the employee ID, whose field exists only while a record is held |
| ReceiveItems.ReceiveScenario | Track-itt-mobile-app/src/screens/ReceiveItemsScreen.js:29-52 | retrieving and completing with an ID leads to the success message and one go-back; without one, to the failure message and no navigation |

## Left out

- HTTP itself is not modelled. This covers axios requests and responses, the interceptor's error handler (`api.js:23-25`) and the endpoint wrappers `registerUser`, `loginUser`, `addProduct`, `fetchAllCategories` and `fetchAllInventories` (`api.js:28-61`). Each only issues one request; sign-up's call becomes the `RegisterOutcome` input.
- The dashboard's `fetchPieChartData`, `fetchLineChartData` and `fetchInvoicesTableData` are not part of this model. Their results, or the failure, are the input to `Dashboard.Screen.FetchSettled`. `Promise.all` is modelled as settling once, with all three results or one error.
- AsyncStorage reads and writes are modelled as map updates that never fail.
- `getRandomColor` (random) is not modelled, so a pie slice has no colour. The line chart's colour function is left out too.
- Date formatting with `toLocaleString` and all styles are left out.
- The login screen, the other presentational screens, navigation wiring, the theme and the admin dashboard are not part of this model.
- JsText.ToLower: folds ASCII letters only, not the full Unicode case mapping of `toLowerCase`. The records and picker values are ASCII, but typed text (the status filter and the employee IDs) need not be: a typed U+212A KELVIN SIGN, which `toLowerCase` maps to "k", is left as it is.
- Timer delays (3000 ms and 1500 ms) are not modelled. Only their order is: a screen's timers share one delay, so they run oldest first.
- Snackbar `duration` auto-hiding is modelled only as `DismissSnackbar`.
- Each handler reads the screen's current state. A second press that would see a stale render's values is not modelled.
- SignUp.Screen.HandleSignUp: requires that the screen is not loading, because the button is disabled while loading (`SignUpScreen.js:137`). A press during loading is not modelled.
- SignUp.Screen.RegisterSettled: the `setAuthToken` write and the `registerUser` call settle as one outcome. A storage failure after a successful registration is not modelled separately.
- TransactionHistory.Screen.ConfirmCompleteTransaction: requires an open dialog, because its Confirm button exists only inside it. The selected record is always set while the dialog is open.
- ReceiveItems.Screen.HandleCompleteTransaction: requires a held record, because its button renders only then (`ReceiveItemsScreen.js:91`).
- ReceiveItems.Screen.SetReceivedByEmployeeId: requires a held record, for the same reason (`ReceiveItemsScreen.js:80`).
- The products caption of the send-items screen is modelled as the count `SendItems.Screen.ProductCount`, not as the rendered text. The other picker captions are modelled through `Ui.Caption`.
- The Dashboard screen's invoice table rows and its loading text are not modelled beyond `Dashboard.Screen.Rendered`.
- Dashboard.LineTotals: sales, pie totals, `totalPages` and `currentPage` are unbounded integers, not IEEE doubles. Fractional sales, their rounding and the string concatenation `reduce` performs when a `sales` value is a string are not modelled.
- Dashboard.Screen.OnPageChange: does not keep `currentPage` within `1..totalPages`. Every page change refetches, and the refetch replaces `totalPages` without touching the page, so a shrinking page count leaves the page beyond it (`Dashboard.RefetchOutgrowsPages`).
- The invoice request's page size (`DashboardScreen.js:25`, always 10) is not recorded in `requestedPages`; only the page is.
- Of axios's defaults only the common `Accept` header is modelled. Method-specific default headers and the case-insensitive matching of header names are left out.
- Picker entries use the field name `labelText`, because `label` is reserved in Dafny.

## Findings

| source | as written | input that shows it | evidently intended | confidence | as-written member | corrected member |
|---|---|---|---|---|---|---|
| Track-itt-mobile-app/src/screens/TransactionHistoryScreen.js:80-97 | the location pickers store an entry's value (`warehouseA`) in `filterFrom`/`filterTo`, and the filter looks for that value inside the record's location, which holds the label (`Warehouse A`) | open From, pick Warehouse A: "warehouse a" does not include "warehousea", so no record is listed | the filter compares with the picked entry's label, so picking Warehouse A lists the record shipped from it | high (not executed) | TransactionHistory.PickedLocationHidesEveryRecord | TransactionHistory.PickingWarehouseAListsItsRecord |
| Track-itt-mobile-app/src/screens/SendItemsScreen.js:67-103 | the products picker stores the chosen value string in `selectedProducts`, which started as an array, so `.length` counts characters | pick Product A: the caption reads "8 Product(s) Selected" | `selectedProducts` stays a list holding the chosen product, so one product counts as 1 | high (not executed) | SendItems.PickedProductCountsCharacters | SendItems.IntendedSelection |
