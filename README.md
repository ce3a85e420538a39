# OutfitGo admin panel core, modelled in Dafny

OutfitGo is a React admin panel for an online clothing store. It has two roles.
A **superadmin** manages sellers (admins), customers, products and orders.
An **admin** (a seller) manages their own products, orders and returns. Most of
the code is rendering around REST calls. This project models the deterministic
rules underneath. Storage, HTTP responses and the clock are passed in as
values, and each rule is stated and proved:

- **Cross-tab impersonation hand-off** (`AdminsPage`, `AdminAutoLogin`,
  `WebStorage`, `Jwt`, `App`). The superadmin's tab stores a one-time record
  `{token, adminId, adminName, timestamp}` under the key `impersonate_<ms>`.
  It opens `/admin-login?key=…` in a new tab. The new tab runs a fixed chain
  of checks. The first failing check is reported. The key is always removed,
  and only a fresh, well-formed admin impersonation token is installed as a
  tab-scoped session. `App` models cookie reading, JWT decoding, the route
  guards and the effect that syncs the store with the session or the cookie.
- **Return-status workflow** (`ReturnsPage`). The transition table is a finite
  successor relation. It is acyclic and its terminal states are known. The
  New Status menu is exactly the successor list.
- **Redux slices and the impersonation context** (`AuthSlice`,
  `ProductsSlice`, `OrdersSlice`, `LiveSlice`, `CartSlice`,
  `ImpersonationContext`). Each is a class whose methods update its fields as
  the reducers do: append, replace-first-by-id, delete-all-by-id, payload
  normalisation, map merge, reset to initial.
- **Error bookkeeping** (`ErrorHandler`, `UseErrorHandler`). This covers the
  log bounded at 100 entries, the HTTP-status messages, the validation
  message and the hook's classification order.
- **Image validation and resize arithmetic** (`ImageUtils`). The checks run in
  order, the size limit is inclusive, errors are collected per file, and the
  aspect-preserving cap uses `Math.round`.
- **Page derivations** (`OrdersPage`, `ProductsPage`, `SuperAdminDashboard`,
  `AdminDashboard`, `CustomersPage`, `CustomerViewPage`, `AdminViewPage`,
  `MainLayout`, `AdminSelector`). These are the search filters, page slices
  and counts, seller de-duplication, stat cards, initials, the rules for
  highlighting the active path, the form and payload builders and the dialog
  state.

JavaScript semantics are spelled out in module `Js`:
- truthiness, with `""` and `0` falsy;
- `||` against `??`;
- `Array.prototype.slice` with clamping;
- `filter`;
- settled promises.

Module `Strings` covers `split`, `join`, `includes`, `startsWith`, the
first-occurrence `replace` and ASCII case mapping. A field that may be missing
is an `Option`. A request outcome is a `Result`, or a `Settled` for
`Promise.allSettled`.

Where two source files hold the same handler word for word, one member models
both:
- the status dialog of `OrdersPageNew.jsx` and `OrdersPage.jsx`;
- the product editor of `ProductsPageNew.jsx` and `admin/ProductsPage.jsx`;
- the two `getInitials` variants.

The row cites one of the files.

## Model

| member | source | states |
|---|---|---|
| AdminAutoLogin.ErrorText | src/pages/AdminAutoLogin.jsx:135-137 | a missing key shows its own message bare; every other refusal shows "Authentication failed: " followed by the message of the check that threw |
| AdminAutoLogin.Validate | src/pages/AdminAutoLogin.jsx:42-123 | a success means every check passed: the record was found and readable, is at most 15000 ms old, holds a token of three dot-separated parts whose payload decodes with email and role present, the impersonation flag set, role 'admin', not expired, a truthy impersonatedBy and sub equal to the record's adminId; the session's username is the email before '@'; the missing-key reason is never produced here |
| AdminAutoLogin.FirstReason | src/pages/AdminAutoLogin.jsx:42-102 | no reason exactly when no check of the table fails; otherwise the reason of the earliest failing check |
| AdminAutoLogin.FirstReasonAppend | src/pages/AdminAutoLogin.jsx:42-102 | the first failure of two consecutive groups of checks is the first group's if it has one, else the second's |
| AdminAutoLogin.Checks | src/pages/AdminAutoLogin.jsx:29-102 | the consumer runs exactly thirteen checks: the key, then checks 2 to 12 of the chain |
| AdminAutoLogin.RecordChecksAgree | src/pages/AdminAutoLogin.jsx:42-59 | the key and record checks of the table fail exactly where the chain does: key missing, item absent, unreadable, older than 15000 ms, token missing |
| AdminAutoLogin.TokenChecksAgree | src/pages/AdminAutoLogin.jsx:64-71 | the token-shape and payload-decoding checks fail exactly where the chain does |
| AdminAutoLogin.ClaimChecksAgree | src/pages/AdminAutoLogin.jsx:73-102 | the six claim checks, in source order, report what the chain reports |
| AdminAutoLogin.OutcomeIsFirstFailure | src/pages/AdminAutoLogin.jsx:29-102 | the page reports exactly the first failing check, and logs in exactly when no check fails |
| AdminAutoLogin.SplitCount | src/pages/AdminAutoLogin.jsx:65-68 | `split('.')` yields three parts exactly when the token has two dots |
| AdminAutoLogin.FreshnessBoundary | src/pages/AdminAutoLogin.jsx:51-54 | a record is fresh iff its age is at most 15000 ms (exactly 15000 passes); a missing timestamp never makes it stale |
| AdminAutoLogin.KeyExpiredIff | src/pages/AdminAutoLogin.jsx:51-54 | the expired-key error is reported exactly for a readable record older than 15000 ms |
| AdminAutoLogin.ExpiryBoundary | src/pages/AdminAutoLogin.jsx:88-92 | an exp equal to the current second passes, a missing or zero exp is not checked, and any earlier non-zero exp fails |
| AdminAutoLogin.SuperadminNeverImpersonated | src/pages/AdminAutoLogin.jsx:83-86 | a token whose role is 'superadmin' is always refused |
| AdminAutoLogin.ImpersonatedSessionIsPlainAdmin | src/App.jsx:34-57 | an impersonated session passes the private route, is sent away from superadmin routes and gets the admin pages |
| AdminAutoLogin.AutoLogin | src/pages/AdminAutoLogin.jsx:25-152 | the result is the check chain on the storage as found; a supplied key is removed from localStorage whatever happens and a missing one touches nothing; on success the session entries and the auth store get the token, role and email prefix and the page goes to '/'; on failure the store and session are unchanged, the token cookie is expired and the page goes to '/login' with the error text |
| AdminsPage.SubmitRequest | src/pages/superadmin/AdminsPage.jsx:153-170 | the body's role is always 'admin' and the other fields are the form's; create iff no admin is being edited, update targets the edited admin's id; create keeps the password, update drops an empty one and keeps a non-empty one |
| AdminsPage.NoSuperadminFromTheForm | src/pages/superadmin/AdminsPage.jsx:156-160 | no form contents can make the page request a superadmin |
| AdminsPage.StorageKey | src/pages/superadmin/AdminsPage.jsx:83 | the hand-off key is 'impersonate_' followed by the millisecond clock |
| AdminsPage.StorageKeyInjective | src/pages/superadmin/AdminsPage.jsx:83 | hand-offs started at different milliseconds never share a key |
| AdminsPage.LaunchUrl | src/pages/superadmin/AdminsPage.jsx:92 | the opened URL is the origin, '/admin-login?key=' and the key, and nothing else (never the token) |
| AdminsPage.HandOffRecord | src/pages/superadmin/AdminsPage.jsx:75-80 | the stored record holds the backend's token, the admin's id and name and the current time |
| AdminsPage.CleanupMatchesAcceptance | src/pages/superadmin/AdminsPage.jsx:119-122 | the producer's clean-up delay equals the consumer's 15000 ms acceptance window |
| AdminsPage.HandOffFreshUntilCleanup | src/pages/superadmin/AdminsPage.jsx:75-122 | a record read back before its clean-up is never refused as too old |
| AdminsPage.HandOffStaleAfterWindow | src/pages/superadmin/AdminsPage.jsx:75-122 | a record read back after the window is refused with the expired-key error |
| AdminsPage.HandOffSucceeds | src/pages/superadmin/AdminsPage.jsx:70-122 | a genuine admin impersonation token handed off and read within the window logs the new tab in as that admin |
| AdminsPage.AdminsPageState.constructor | src/pages/superadmin/AdminsPage.jsx:34-41 | the page opens with the blank form, nobody being edited and the dialog closed |
| AdminsPage.AdminsPageState.Edit | src/pages/superadmin/AdminsPage.jsx:130-140 | editing preloads the admin's name, email, role and status with a blank password and opens the dialog |
| AdminsPage.AdminsPageState.Submit | src/pages/superadmin/AdminsPage.jsx:153-184 | the request sent is the form's; a successful save closes the dialog, clears the edit target and resets the form to the blank one, a failed one changes nothing |
| AdminsPage.AdminsPageState.ViewDashboard | src/pages/superadmin/AdminsPage.jsx:68-128 | a failed token request stores nothing; a blocked popup stores and removes the key at once; an opened tab leaves the record under the key with clean-up scheduled 15000 ms later |
| App.GetCookie | src/App.jsx:17-20 | a value is returned only if it is non-empty and belongs to the first cookie named exactly `name` with a non-empty value; null exactly when every cookie of that name is empty or there is none |
| App.ClearedCookieIsAbsent | src/services/api.js:21-23 | after the token cookie is expired, reading it gives null |
| App.DecodeJWT | src/App.jsx:23-32 | claims are returned exactly when the token has three parts and its middle segment decodes, and they are the decoded ones |
| App.PrivateRoute | src/App.jsx:34-41 | renders exactly for a truthy token with role 'admin' or 'superadmin'; everything else is redirected to /login |
| App.SuperAdminRoute | src/App.jsx:43-50 | renders exactly for a truthy token with role 'superadmin'; no token goes to /login, any other role to / |
| App.SuperAdminRouteNarrower | src/App.jsx:34-50 | whatever the superadmin guard lets through, the private guard lets through too |
| App.RoleBasedPage | src/App.jsx:53-57 | the superadmin page is chosen exactly for role 'superadmin' |
| App.SyncDecision | src/App.jsx:64-105 | a usable stored session is applied as is; otherwise a cookie token that differs from the store's and decodes to a truthy email and role is applied with that token, the email's text before the first '@' as username and the payload's role; logout happens exactly when the store has a token while neither a session token nor a token cookie exists; in every other case nothing is dispatched |
| App.GarbledSessionNeverLogsOut | src/App.jsx:69-82 | a stored session whose user entry does not parse falls through to the cookie but never causes a logout |
| App.SameCookieNoChange | src/App.jsx:88-99 | a cookie equal to the stored token changes nothing |
| App.SyncAuth | src/App.jsx:64-105 | the effect dispatches the decision on the tab's storage and the old token; an applied payload sets the store as `setAuth` does, a logout resets it, no change leaves it as it was |
| AuthSlice.AuthState.constructor | src/store/slices/authSlice.js:3-7 | the store starts with token, username and role all null |
| AuthSlice.AuthState.SetAuth | src/store/slices/authSlice.js:13-17 | token and username are copied from the payload; a falsy role is stored as null, so role is never empty |
| AuthSlice.AuthState.Logout | src/store/slices/authSlice.js:18-22 | from any state the three fields are null again, which is the initial state, so a repeated logout changes nothing |
| WebStorage.Expire | src/services/api.js:21-23 | every remaining cookie was in the jar and is not named `name`; every cookie of another name is kept |
| WebStorage.Browser.constructor | src/pages/superadmin/AdminsPage.jsx:85 | a tab starts with the given localStorage and cookies and no impersonation session |
| WebStorage.Browser.SetLocal | src/pages/superadmin/AdminsPage.jsx:85 | `setItem` stores the record under the key and changes no other key |
| WebStorage.Browser.RemoveLocal | src/pages/AdminAutoLogin.jsx:62 | `removeItem` drops the key and nothing else |
| WebStorage.Browser.SetSession | src/pages/AdminAutoLogin.jsx:111-116 | the session token and user entries hold the given values |
| WebStorage.Browser.ClearAuthCookie | src/services/api.js:21-23 | the token cookie is expired and the other cookies stay |
| Jwt.UserName | src/pages/AdminAutoLogin.jsx:115 | the username is the email's text before the first '@': it contains no '@' and is no longer than the email |
| ImpersonationContext.ImpersonationProvider.constructor | src/context/ImpersonationContext.jsx:14 | the provider starts with no impersonated admin |
| ImpersonationContext.ImpersonationProvider.Start | src/context/ImpersonationContext.jsx:16-18 | the cell holds the given admin, and impersonating holds iff it is not null |
| ImpersonationContext.ImpersonationProvider.Stop | src/context/ImpersonationContext.jsx:20-22 | the cell is null and impersonating is false, from any state |
| ImpersonationContext.UseImpersonation | src/context/ImpersonationContext.jsx:5-11 | the hook returns the provider's context when there is one and fails with the outside-provider error otherwise |
| ReturnsPage.Parse | src/pages/admin/ReturnsPage.jsx:34-45 | a raw status is recognised only if it is the backend name of that status |
| ReturnsPage.ParseName | src/pages/admin/ReturnsPage.jsx:34-45 | every status reads back from its own name, so the ten names are distinct |
| ReturnsPage.StatusChip | src/pages/admin/ReturnsPage.jsx:174 | a known status shows its configured, non-empty label and colour; an unknown one shows its raw value in the default colour |
| ReturnsPage.Shape | src/pages/admin/ReturnsPage.jsx:47-55 | exactly requested and inspected have two successors; exactly rejected, refund_completed and cancelled have none; no status has more than two |
| ReturnsPage.CancelledNeverTarget | src/pages/admin/ReturnsPage.jsx:47-55 | no status lists cancelled as a successor |
| ReturnsPage.TransitionsFor | src/pages/admin/ReturnsPage.jsx:202 | the update button shows exactly for a known, non-terminal status, and its successors are the table's |
| ReturnsPage.MenuOf | src/pages/admin/ReturnsPage.jsx:505-510 | one menu entry per successor, in order, valued by the status name and labelled by its configured label |
| ReturnsPage.MenuIsSuccessors | src/pages/admin/ReturnsPage.jsx:505-510 | the New Status menu lists exactly the successors of the current status in table order; an unknown status gets an empty menu |
| ReturnsPage.Rank | src/pages/admin/ReturnsPage.jsx:47-55 | each status has a position along the workflow, at most 9 |
| ReturnsPage.RankIncreases | src/pages/admin/ReturnsPage.jsx:47-55 | every transition moves to a strictly later position |
| ReturnsPage.PathRanks | src/pages/admin/ReturnsPage.jsx:47-55 | after i updates the position has grown by at least i |
| ReturnsPage.NoCycles | src/pages/admin/ReturnsPage.jsx:47-55 | along any sequence of updates no status repeats, and no such sequence has more than ten statuses |
| ReturnsPage.PathsFromAnyPoint | src/pages/admin/ReturnsPage.jsx:47-55 | any suffix of a sequence of updates is itself one |
| ReturnsPage.NoCancelledOnPath | src/pages/admin/ReturnsPage.jsx:47-55 | a sequence of updates that does not start at cancelled never reaches it |
| ReturnsPage.CompletedPathsEnd | src/pages/admin/ReturnsPage.jsx:47-55 | every sequence of updates from requested that cannot go on ends in rejected or refund_completed |
| ReturnsPage.ReturnsDialog.constructor | src/pages/admin/ReturnsPage.jsx:61-66 | the dialogs start closed, with no selection, empty new status and notes, not updating |
| ReturnsPage.ReturnsDialog.OpenStatusDialog | src/pages/admin/ReturnsPage.jsx:99-104 | the row is selected, the new status and notes are cleared, the dialog opens, and Update is disabled |
| ReturnsPage.ReturnsDialog.ChooseStatus | src/pages/admin/ReturnsPage.jsx:501-510 | the new status becomes the chosen menu entry, so it is always a successor of the selected return's status |
| ReturnsPage.ReturnsDialog.SetNotes | src/pages/admin/ReturnsPage.jsx:518 | the notes hold the typed text |
| ReturnsPage.ReturnsDialog.UpdateStatus | src/pages/admin/ReturnsPage.jsx:106-126 | nothing is sent while the new status is empty; otherwise the request carries the return id, the new status (a successor of the current one) and the notes, a success closes both dialogs, and updating ends false |
| ProductsSlice.Normalize | src/store/products/productsSlice.js:36 | an array payload is the list; otherwise `products` if present (even empty), else `data`, else the empty list |
| ProductsSlice.IndexOfId | src/store/products/productsSlice.js:41 | -1 exactly when no product has the id; otherwise the first index holding it |
| ProductsSlice.Replaced | src/store/products/productsSlice.js:40-43 | the length is kept, the first product with the id is replaced, every other position is unchanged, and with no match the list is untouched |
| ProductsSlice.WithoutId | src/store/products/productsSlice.js:44-46 | no survivor has the id, every survivor was in the list, and every product with another id survives |
| ProductsSlice.WithoutIdKeepsOrder | src/store/products/productsSlice.js:45 | removing from a concatenation concatenates the removals, so the survivors keep their relative order |
| ProductsSlice.WithoutAbsentId | src/store/products/productsSlice.js:45 | deleting an id no product has leaves the list as it was |
| ProductsSlice.ReplaceAfterAppend | src/store/products/productsSlice.js:39-43 | updating a just-created product with a fresh id replaces it at the end of the list |
| ProductsSlice.ProductsState.constructor | src/store/products/productsSlice.js:29 | the slice starts with an empty list, not loading, no error |
| ProductsSlice.ProductsState.FetchPending | src/store/products/productsSlice.js:33 | loading is set and the error cleared |
| ProductsSlice.ProductsState.FetchFulfilled | src/store/products/productsSlice.js:34-37 | loading ends and the list is the normalised payload |
| ProductsSlice.ProductsState.FetchRejected | src/store/products/productsSlice.js:38 | loading ends and the error is the thunk's message |
| ProductsSlice.ProductsState.CreateFulfilled | src/store/products/productsSlice.js:39 | the new product is appended at the end |
| ProductsSlice.ProductsState.FindIndex | src/store/products/productsSlice.js:41 | the scan returns the first index with the id, or -1 |
| ProductsSlice.ProductsState.UpdateFulfilled | src/store/products/productsSlice.js:40-43 | the list becomes the old one with the first product of that id replaced |
| ProductsSlice.ProductsState.DeleteFulfilled | src/store/products/productsSlice.js:44-46 | the list becomes the old one without any product of that id |
| OrdersSlice.OrdersOf | src/store/orders/ordersSlice.js:31 | an `orders` array is used when present; otherwise a bare array payload; otherwise the empty list |
| OrdersSlice.PaginationOf | src/store/orders/ordersSlice.js:32 | the payload's pagination, or null when it has none |
| OrdersSlice.OrdersState.constructor | src/store/orders/ordersSlice.js:16 | the slice starts with no orders, no pagination, not loading, no error |
| OrdersSlice.OrdersState.FetchPending | src/store/orders/ordersSlice.js:20-24 | loading is set and the error cleared |
| OrdersSlice.OrdersState.FetchFulfilled | src/store/orders/ordersSlice.js:25-33 | loading ends, the list and pagination are those of the payload |
| OrdersSlice.OrdersState.FetchRejected | src/store/orders/ordersSlice.js:34-38 | loading ends and the error is the message; the list and pagination stay |
| LiveSlice.Merged | src/store/slices/liveSlice.js:34 | the keys are the payload's and the old ones; payload values override, other old values are kept, and null stats spread as nothing |
| LiveSlice.MergeIdempotent | src/store/slices/liveSlice.js:32-36 | applying the same update twice gives what applying it once gives |
| LiveSlice.MergeEmpty | src/store/slices/liveSlice.js:34 | an empty update keeps the statistics and turns null into an empty object |
| LiveSlice.LiveState.constructor | src/store/slices/liveSlice.js:3-10 | the slice starts in its initial state |
| LiveSlice.LiveState.SetLiveStats | src/store/slices/liveSlice.js:16-19 | the stats are replaced by the payload and the update time is stamped; nothing else changes |
| LiveSlice.LiveState.SetActiveUsers | src/store/slices/liveSlice.js:20-22 | only the active-user count changes |
| LiveSlice.LiveState.SetCurrentOrders | src/store/slices/liveSlice.js:23-25 | only the current orders change |
| LiveSlice.LiveState.SetLiveRevenue | src/store/slices/liveSlice.js:26-28 | only the live revenue changes |
| LiveSlice.LiveState.SetConnectionStatus | src/store/slices/liveSlice.js:29-31 | only the connection flag changes |
| LiveSlice.LiveState.UpdateLiveStats | src/store/slices/liveSlice.js:32-36 | the stats become the merge of the old ones with the payload and the update time is stamped |
| LiveSlice.LiveState.ClearLiveData | src/store/slices/liveSlice.js:37-44 | from any state the slice is back to exactly its initial state |
| CartSlice.CartState.constructor | src/store/slices/cartSlice.js:3-10 | the slice starts with three empty lists, null stats and error, not loading |
| CartSlice.CartState.SetLoading | src/store/slices/cartSlice.js:16-18 | only the loading flag changes |
| CartSlice.CartState.SetError | src/store/slices/cartSlice.js:19-22 | the error is stored and loading is forced off |
| CartSlice.CartState.SetCarts | src/store/slices/cartSlice.js:23-27 | the carts are stored, loading ends and the error clears |
| CartSlice.CartState.SetActiveCarts | src/store/slices/cartSlice.js:28-30 | only the active carts change |
| CartSlice.CartState.SetAbandonedCarts | src/store/slices/cartSlice.js:31-33 | only the abandoned carts change |
| CartSlice.CartState.SetCartStats | src/store/slices/cartSlice.js:34-36 | only the stats change |
| CartSlice.CartState.ClearCartData | src/store/slices/cartSlice.js:37-43 | the three lists are emptied and stats and error nulled, while loading is left untouched |
| ErrorHandler.Entry | src/utils/errorHandler.jsx:12-20 | an entry records the error's message, or 'Unknown error' when it has none, with the given context |
| ErrorHandler.Logged | src/utils/errorHandler.jsx:23-28 | after one log call the new entry is last and the log never exceeds 100 entries: below the limit it is appended, at the limit the oldest entry is dropped |
| ErrorHandler.LastN | src/utils/errorHandler.jsx:7 | the window holds min(n, length) entries |
| ErrorHandler.LoggedKeepsLast | src/utils/errorHandler.jsx:23-28 | the log is always the last 100 entries logged since it was cleared, oldest first |
| ErrorHandler.ApiErrorMessage | src/utils/errorHandler.jsx:42-81 | 400 uses the body's message or 'Invalid request data'; 401, 403, 404, 429 and 500 get their fixed texts; any other status uses the body's message or 'Server error (<status>)'; no response with a request gives the network message, neither gives the error's message or the default; never empty |
| ErrorHandler.FixedStatusIgnoresBody | src/utils/errorHandler.jsx:53-67 | two errors with the same fixed status get the same message, whatever their bodies say |
| ErrorHandler.FixedMessagesDistinct | src/utils/errorHandler.jsx:53-67 | the five fixed messages are pairwise different |
| ErrorHandler.DefaultMessageNamesStatus | src/utils/errorHandler.jsx:69 | the fallback message of different statuses differs |
| ErrorHandler.JoinDetails | src/utils/errorHandler.jsx:85 | the detail messages joined with ', ': empty exactly for no details or one detail without a message; two or more details give at least the separator |
| ErrorHandler.ValidationMessage | src/utils/errorHandler.jsx:84-91 | the joined details when that is non-empty, else the error's message, else 'Validation failed'; never empty |
| ErrorHandler.JoinDetailsKeepsEach | src/utils/errorHandler.jsx:85 | every detail's message occurs somewhere in the joined text |
| ErrorHandler.ValidationMessageShowsEachDetail | src/utils/errorHandler.jsx:84-91 | the validation message contains the message of every detail that has one |
| ErrorHandler.MessagelessDetailsShowSeparator | src/utils/errorHandler.jsx:85-87 | two details without messages show ', ' rather than the error's message |
| ErrorHandler.EmptyDetailsFallThrough | src/utils/errorHandler.jsx:85-87 | an empty details list falls through to the error's message, then 'Validation failed' |
| ErrorHandler.ErrorLog.constructor | src/utils/errorHandler.jsx:5-8 | the log starts empty |
| ErrorHandler.ErrorLog.LogError | src/utils/errorHandler.jsx:11-39 | exactly one entry is recorded, and the log becomes the bounded append of it |
| ErrorHandler.ErrorLog.HandleApiError | src/utils/errorHandler.jsx:42-81 | returns the API message and logs the error with type 'API_ERROR' and that message |
| ErrorHandler.ErrorLog.HandleValidationError | src/utils/errorHandler.jsx:84-91 | returns the validation message and logs the error with type 'VALIDATION_ERROR' and that message |
| ErrorHandler.ErrorLog.GetErrors | src/utils/errorHandler.jsx:122-124 | the log in insertion order: the last 100 entries logged since the last clear |
| ErrorHandler.ErrorLog.ClearErrors | src/utils/errorHandler.jsx:127-129 | the log is empty |
| UseErrorHandler.Classify | src/hooks/useErrorHandler.js:11-19 | a string is used verbatim; an object with a response is an API error; one without a response but with details is a validation error; the rest is plain |
| UseErrorHandler.MessageFor | src/hooks/useErrorHandler.js:8-19 | a string verbatim, the API or validation message by kind, else the error's message or 'An unexpected error occurred' |
| UseErrorHandler.ResponseBeforeDetails | src/hooks/useErrorHandler.js:13-16 | an error with both a response and details is treated as an API error |
| UseErrorHandler.OnlyStringsGiveEmptyMessage | src/hooks/useErrorHandler.js:8-19 | only a thrown string can produce an empty message |
| UseErrorHandler.ErrorHook.constructor | src/hooks/useErrorHandler.js:5-6 | no error and not loading at first |
| UseErrorHandler.ErrorHook.HandleError | src/hooks/useErrorHandler.js:8-30 | the returned message is the one stored; API and validation errors are also logged by the handler, the other kinds leave its log alone |
| UseErrorHandler.ErrorHook.ClearError | src/hooks/useErrorHandler.js:32-34 | the error is cleared |
| UseErrorHandler.ErrorHook.ExecuteWithErrorHandling | src/hooks/useErrorHandler.js:36-48 | the outcome is passed through (a failure is rethrown), loading always ends false; a success leaves no error and logs nothing; a failure stores its handled message and logs exactly what `handleError` logs: an API_ERROR or VALIDATION_ERROR entry carrying the context, the message and the time, or nothing for a thrown string or plain error |
| ImageUtils.ValidateImageFile | src/utils/imageUtils.js:39-58 | valid exactly when there is an error-free result, which is exactly when a file is present, its type is one of the five accepted ones and its size is at most maxSizeMB·1024·1024; the first failing check (missing, type, size) gives the message |
| ImageUtils.SizeLimitInclusive | src/utils/imageUtils.js:52-55 | a file of exactly the limit passes and one byte more fails |
| ImageUtils.TypeCheckedBeforeSize | src/utils/imageUtils.js:45-55 | a file of the wrong type and too large reports the type error |
| ImageUtils.FileErrors | src/utils/imageUtils.js:70-75 | at most one message per file |
| ImageUtils.NoErrorsIffAllValid | src/utils/imageUtils.js:66-80 | there is no message exactly when every file is valid |
| ImageUtils.LastFileMessage | src/utils/imageUtils.js:70-75 | an invalid file adds one message, after the earlier ones, numbered by its 1-based position and carrying its own error |
| ImageUtils.ValidateImageFiles | src/utils/imageUtils.js:66-81 | the loop collects exactly the per-file messages in order, and the result is valid exactly when every file is |
| ImageUtils.RoundDiv | src/utils/imageUtils.js:106 | `Math.round(a / b)` for non-negative operands: the nearest integer, halves rounding up |
| ImageUtils.RoundDivClose | src/utils/imageUtils.js:106 | the rounded quotient is within half a unit of the exact one |
| ImageUtils.Fit | src/utils/imageUtils.js:100-114 | a landscape image wider than the bound is capped in width, a portrait or square one taller than the bound in height, with the other side scaled by the same ratio and rounded as `Math.round` does (`RoundDiv`); an image whose longer side (the width when wider, else the height) is within its bound is unchanged |
| ImageUtils.FitKeepsRatio | src/utils/imageUtils.js:104-113 | a capped image keeps the original aspect ratio to within half a pixel on the scaled side |
| ImageUtils.FitSquareBox | src/utils/imageUtils.js:91-114 | with the same bound on both sides the result fits the box |
| ImageUtils.FitNeverEnlarges | src/utils/imageUtils.js:100-114 | neither side ever grows |
| ImageUtils.UnequalBoundsCapOneSide | src/utils/imageUtils.js:104-108 | with different bounds only one side is capped: a 2000×1900 image with bounds 1920×100 becomes 1920×1824 |
| OrdersPage.FilterOrders | src/pages/superadmin/OrdersPageNew.jsx:154-158 | the filtered list keeps fetched order, holds only matching orders and every matching order |
| OrdersPage.QueryCaseIgnored | src/pages/superadmin/OrdersPageNew.jsx:155-157 | for orders without a phone, lower-casing the query does not change whether the id or delivery name matches |
| OrdersPage.BareOrderNeverListed | src/pages/superadmin/OrdersPageNew.jsx:155-157 | an order with no id, name or phone is filtered out for every query, the empty one included |
| OrdersPage.EmptyQueryKeepsOrdersWithAField | src/pages/superadmin/OrdersPageNew.jsx:154-158 | the empty search keeps every order that has an id, a name or a phone |
| OrdersPage.PageOf | src/pages/superadmin/OrdersPageNew.jsx:160-163 | a page holds at most rowsPerPage rows, row k is filtered order page*rowsPerPage+k, and a page inside the list is full |
| OrdersPage.EveryOrderOnItsPage | src/pages/superadmin/OrdersPageNew.jsx:160-163 | filtered order i appears as row i % rowsPerPage of page i / rowsPerPage |
| OrdersPage.PagePastTheEndIsEmpty | src/pages/superadmin/OrdersPageNew.jsx:160-163 | a page that starts past the end of the filtered list shows no rows |
| OrdersPage.SellerOf | src/pages/superadmin/OrdersPageNew.jsx:412-416 | the pushed seller carries the item's creator id and a non-empty name and role (defaults 'Unknown' and 'admin') |
| OrdersPage.FirstIndexOf | src/pages/superadmin/OrdersPageNew.jsx:411 | the index found is the first item created by that id, or the length when none is |
| OrdersPage.FirstIndexInPrefix | src/pages/superadmin/OrdersPageNew.jsx:410-419 | a creator's first item inside a prefix is also its first item in the whole list |
| OrdersPage.SellersUnique | src/pages/superadmin/OrdersPageNew.jsx:411 | the sellers reduce never lists a creator id twice |
| OrdersPage.SellersCover | src/pages/superadmin/OrdersPageNew.jsx:410-419 | every item with a creator has that creator among the sellers |
| OrdersPage.PrefixKeepsFirstItems | src/pages/superadmin/OrdersPageNew.jsx:410-419 | appending an item does not move the first item of an already listed seller |
| OrdersPage.NewSellerFirstAtEnd | src/pages/superadmin/OrdersPageNew.jsx:411-417 | a seller pushed by the last item has no earlier item |
| OrdersPage.SellersFromFirst | src/pages/superadmin/OrdersPageNew.jsx:411-417 | each listed seller is built from the first item of its creator |
| OrdersPage.SellersOrdered | src/pages/superadmin/OrdersPageNew.jsx:410-419 | sellers are listed in the order their creators first appear among the items |
| OrdersPage.SellerListProperties | src/pages/superadmin/OrdersPageNew.jsx:410-419 | the seller list has unique ids, covers every creator, takes each entry from its creator's first item and keeps first-appearance order |
| OrdersPage.FindSeller | src/pages/superadmin/OrdersPageNew.jsx:411 | the linear search reports true exactly when a seller with that id is already listed |
| OrdersPage.CollectSellers | src/pages/superadmin/OrdersPageNew.jsx:410-419 | the accumulating loop yields the reduce's seller list, and `|| []` gives none for a missing item list |
| OrdersPage.SellerSummary | src/pages/superadmin/OrdersPageNew.jsx:439-463 | the cell shows the first min(2, n) sellers and '+<n-2> more' exactly when there are more than two |
| OrdersPage.MoreTextCountsHidden | src/pages/superadmin/OrdersPageNew.jsx:459-461 | two seller lists with the same '+n more' text have the same length |
| OrdersPage.DisplayedAmount | src/pages/superadmin/OrdersPageNew.jsx:484 | the amount is pricing.total when non-zero, otherwise total, and 0 exactly when both are missing or zero |
| OrdersPage.StatusChipColors | src/pages/superadmin/OrdersPageNew.jsx:511-512 | a known status gets its table colours, any other or missing status the grey fallback |
| OrdersPage.DialogStatusesColored | src/pages/superadmin/OrdersPageNew.jsx:916-921 | each of the six statuses the dialog offers has its own colours, none of them the fallback, and the table has exactly those keys |
| OrdersPage.LegacyStatusChip | src/pages/superadmin/OrdersPage.jsx:95 | the caption is the value or 'pending'; the colour is the table entry for the raw value or '#666' |
| OrdersPage.MissingStatusReadsPendingInGrey | src/pages/superadmin/OrdersPage.jsx:95 | an order without a status reads 'pending' but in grey, unlike a real pending order |
| OrdersPage.OrdersPageState.constructor | src/pages/superadmin/OrdersPageNew.jsx:61-72 | the page starts with no orders, page 0 of 10 rows, an empty search, no selection and both dialogs closed |
| OrdersPage.OrdersPageState.Visible | src/pages/superadmin/OrdersPageNew.jsx:154-163 | the rows on screen are the filtered orders from page*rowsPerPage on, at most rowsPerPage of them, each matching the search |
| OrdersPage.OrdersPageState.FetchAllOrders | src/pages/superadmin/OrdersPageNew.jsx:87-99 | success stores `orders || []` and clears the error; failure keeps the orders and sets the message or 'Failed to load orders'; loading ends |
| OrdersPage.OrdersPageState.ChangeSearch | src/pages/superadmin/OrdersPageNew.jsx:348 | the search box sets the query and leaves the page as it was |
| OrdersPage.OrdersPageState.ChangePage | src/pages/superadmin/OrdersPageNew.jsx:145-147 | the pager sets the page to the one chosen |
| OrdersPage.OrdersPageState.ChangeRowsPerPage | src/pages/superadmin/OrdersPageNew.jsx:149-152 | a new page size resets the table to page 0, which then shows the first n filtered orders |
| OrdersPage.OrdersPageState.ViewDetails | src/pages/superadmin/OrdersPageNew.jsx:534-537 | the eye button selects the order and opens the details dialog |
| OrdersPage.OrdersPageState.OpenStatusDialog | src/pages/superadmin/OrdersPageNew.jsx:545-548 | the status dialog opens with the order's own status preset, so Update starts disabled |
| OrdersPage.OrdersPageState.ChooseStatus | src/pages/superadmin/OrdersPageNew.jsx:903 | Update is enabled exactly when the chosen status is non-empty and differs from the order's status |
| OrdersPage.OrdersPageState.CloseStatusDialog | src/pages/superadmin/OrdersPageNew.jsx:927 | Cancel closes the dialog and keeps the selection |
| OrdersPage.OrdersPageState.UpdateStatus | src/pages/superadmin/OrdersPageNew.jsx:110-122 | without a selection or a new status nothing is sent; otherwise the order's id and status are sent, and success closes and clears the dialog and refetches while failure changes nothing |
| OrdersPage.OrdersPageState.AutoCancel | src/pages/superadmin/OrdersPageNew.jsx:124-143 | the report is shown and a refetch asked for exactly when it cancelled a positive count; a failure shows success false with the error message or the default |
| ProductsPage.FilterProducts | src/pages/superadmin/ProductsPageNew.jsx:171-174 | the filtered catalogue keeps fetched order and holds exactly the products whose name or category contains the query, ignoring case |
| ProductsPage.EmptyQueryListsAll | src/pages/superadmin/ProductsPageNew.jsx:171-174 | an empty search lists the whole catalogue unchanged |
| ProductsPage.TotalPages | src/pages/superadmin/ProductsPageNew.jsx:176 | the page count is the ceiling of n / 12: zero only for no matches, and the last page is non-empty |
| ProductsPage.PaginationShownIff | src/pages/superadmin/ProductsPageNew.jsx:587 | the pager is shown exactly when more than twelve products match |
| ProductsPage.PageItems | src/pages/superadmin/ProductsPageNew.jsx:177-180 | page p holds at most twelve products, row k being filtered product (p-1)*12+k |
| ProductsPage.EveryItemOnItsPage | src/pages/superadmin/ProductsPageNew.jsx:176-180 | product i is row i % 12 of page i / 12 + 1, which is never past the last page |
| ProductsPage.PagesPastTheLastAreEmpty | src/pages/superadmin/ProductsPageNew.jsx:176-180 | a page number beyond the page count shows nothing |
| ProductsPage.NumberOf | src/pages/superadmin/ProductsPageNew.jsx:192 | `Number(x)`: NaN exactly for an absent field, 0 for `null`, the number itself otherwise |
| ProductsPage.ValueOf | src/pages/superadmin/ProductsPageNew.jsx:192 | the catalogue value is NaN exactly when some product has no price or no stock field at all |
| ProductsPage.NullAddsNothing | src/pages/superadmin/ProductsPageNew.jsx:192 | a product whose price or stock is `null` (and the other one present) adds nothing to the value |
| ProductsPage.NullStockIsLow | src/pages/superadmin/ProductsPageNew.jsx:191 | a `null` stock counts as low stock, since `null < 10` |
| ProductsPage.StatsOf | src/pages/superadmin/ProductsPageNew.jsx:188-193 | the cards count the whole catalogue, the active products and those with stock below 10 (a `null` stock included, an absent one not), and its value |
| ProductsPage.FilteredWithinTotal | src/pages/superadmin/ProductsPageNew.jsx:171-193 | the search result is never longer than the total the stats card shows |
| ProductsPage.CreatorName | src/pages/admin/ProductsPage.jsx:210-212 | a superadmin's product shows 'Super Admin', any other `createdByName || 'Unknown'`, never empty |
| ProductsPage.CreatorAvatar | src/pages/admin/ProductsPage.jsx:232 | the avatar is the creator caption's first character, uppercased |
| ProductsPage.NamelessCreatorUnknown | src/pages/admin/ProductsPage.jsx:210-232 | an admin's product without a creator name shows 'Unknown' with avatar 'U' |
| ProductsPage.RowId | src/pages/admin/ProductsPage.jsx:320 | the grid row id is `_id` when truthy, otherwise `id` |
| ProductsPage.FormOf | src/pages/superadmin/ProductsPageNew.jsx:76-85 | editing copies the product's name, description, price, category, stock and status into the form; an absent or `null` price or stock leaves that field empty |
| ProductsPage.ExistingPreviews | src/pages/superadmin/ProductsPageNew.jsx:86-88 | each stored image becomes an existing preview of the same URL, in order |
| ProductsPage.NewPreviews | src/pages/superadmin/ProductsPageNew.jsx:135-138 | each picked file becomes a new preview of its object URL, in order |
| ProductsPage.WithoutIndex | src/pages/superadmin/ProductsPageNew.jsx:154-155 | filtering out index i drops exactly that entry and shifts the later ones down; an index past the end changes nothing |
| ProductsPage.NewUrls | src/pages/superadmin/ProductsPageNew.jsx:159-163 | the released URLs are exactly those of the new previews |
| ProductsPage.ExistingPreviewsRevokeNothing | src/pages/superadmin/ProductsPageNew.jsx:159-163 | closing a dialog that only shows stored images releases no URL |
| ProductsPage.PayloadOf | src/pages/superadmin/ProductsPageNew.jsx:102-105 | the payload is the form, with `images` exactly when new images were picked |
| ProductsPage.RemovedExistingImageIsNotSaved | src/pages/superadmin/ProductsPageNew.jsx:102-105 | with no new images picked the payload has no `images`, so removing a stored image is not saved |
| ProductsPage.ProductEditor.constructor | src/pages/superadmin/ProductsPageNew.jsx:46-59 | the editor starts closed, editing nothing, with the blank 'active' form and no images |
| ProductsPage.ProductEditor.Edit | src/pages/superadmin/ProductsPageNew.jsx:76-90 | the product and its form are loaded and the dialog opens; previews become its images only when it has some |
| ProductsPage.ProductEditor.SelectImages | src/pages/superadmin/ProductsPageNew.jsx:120-147 | no files changes nothing; invalid files or a failed compression only alert; otherwise the compressed images and new previews replace the old ones |
| ProductsPage.ProductEditor.RemoveImage | src/pages/superadmin/ProductsPageNew.jsx:149-156 | entry i leaves both lists, and only a new preview's URL is released |
| ProductsPage.ProductEditor.CloseDialog | src/pages/superadmin/ProductsPageNew.jsx:158-169 | every new preview's URL is released and the dialog is closed and reset to the blank form with no images |
| ProductsPage.ProductEditor.Submit | src/pages/superadmin/ProductsPageNew.jsx:99-118 | the request updates the edited product by `_id` or creates one with the payload; success closes and resets the dialog, failure leaves everything |
| SuperAdminDashboard.StatsOf | src/pages/superadmin/DashboardPageNew.jsx:97-126 | each card takes its first truthy field or 0 (revenue, orders and products with their fallbacks), the low-stock count is the list's length or 0, and the active-users card gets the total user count |
| SuperAdminDashboard.AllRejectedShowsZeros | src/pages/superadmin/DashboardPageNew.jsx:89-126 | when every request is rejected all cards show 0 |
| SuperAdminDashboard.ActiveUsersCardShowsTotal | src/pages/superadmin/DashboardPageNew.jsx:103-123 | the card labelled active users shows users.total, whatever users.active is |
| SuperAdminDashboard.RecentOrders | src/pages/superadmin/DashboardPageNew.jsx:129-132 | at most four orders, none cancelled, being the first min(4, n) non-cancelled orders in fetched order |
| SuperAdminDashboard.RecentOrdersInFetchedOrder | src/pages/superadmin/DashboardPageNew.jsx:130-131 | the recent orders are a subsequence of the fetched orders |
| SuperAdminDashboard.DayIndex | src/pages/superadmin/DashboardPageNew.jsx:144-146 | the weekday of row k is a valid index into the seven day names |
| SuperAdminDashboard.WeekRowAt | src/pages/superadmin/DashboardPageNew.jsx:149-156 | row k names the weekday six-minus-k days ago, and its stock and out-of-stock counts add up to the product total |
| SuperAdminDashboard.BuildWeek | src/pages/superadmin/DashboardPageNew.jsx:143-157 | the loop pushes exactly seven rows, row k being the one for six-minus-k days ago |
| SuperAdminDashboard.WeekEndsToday | src/pages/superadmin/DashboardPageNew.jsx:143-146 | the last row is today and each row is the weekday after the previous one |
| SuperAdminDashboard.Activity | src/pages/superadmin/DashboardPageNew.jsx:162-168 | the series is the last 30 realtime entries when there are any, otherwise 30 minutes of floor(active / 30) users |
| SuperAdminDashboard.SpreadActivityWithinActive | src/pages/superadmin/DashboardPageNew.jsx:165-168 | each minute of the spread-out series shows at most a thirtieth of the active count, so the 30 minutes never add up past it |
| SuperAdminDashboard.TopProducts | src/pages/superadmin/DashboardPageNew.jsx:172-176 | the first three top-sellers when there are any, else the first three stats products when that is an array, else no update; never more than three |
| SuperAdminDashboard.DashboardState.constructor | src/pages/superadmin/DashboardPageNew.jsx:45-61 | the dashboard starts loading with zero stats and empty lists |
| SuperAdminDashboard.DashboardState.FetchDashboardData | src/pages/superadmin/DashboardPageNew.jsx:67-183 | rejected requests count as `{}` or `[]`; the stats, the seven week rows and the activity series are recomputed; recent and top products change only when their data is an array |
| AdminDashboard.StatsOf | src/pages/admin/DashboardPage.jsx:100-113 | rejected results read as `{}` or `[]`; each count is the first present field by `??` or 0, and the low-stock and pending counts are the list length or 0 when not an array |
| AdminDashboard.ZeroTotalIsKept | src/pages/admin/DashboardPage.jsx:107 | a reported total of 0 is shown even when a count is present |
| AdminDashboard.AllRejectedShowsZeros | src/pages/admin/DashboardPage.jsx:100-113 | with every request rejected all six cards show 0 |
| AdminDashboard.DisplayName | src/pages/admin/DashboardPage.jsx:71 | the header name is the viewed admin's name when truthy, otherwise the signed-in user's |
| AdminDashboard.IsViewingAsAdmin | src/pages/admin/DashboardPage.jsx:72 | the page is in viewing-as-admin mode exactly when `adminId` is a non-empty string |
| CustomersPage.FirstChars | src/pages/superadmin/CustomersPage.jsx:106 | the joined first characters are never longer than the word list |
| CustomersPage.Initials | src/pages/superadmin/CustomersPage.jsx:104-107 | 'U' for an empty or missing name; otherwise at most two uppercase first letters of the space-separated words |
| CustomersPage.TwoWordInitials | src/pages/superadmin/CustomersPage.jsx:104-107 | a two-word name gives both words' first letters, uppercased |
| CustomersPage.BlankNameShowsNothing | src/pages/superadmin/CustomersPage.jsx:104-107 | a name of spaces only is truthy yet yields empty initials |
| CustomersPage.ToggleRequest | src/pages/superadmin/CustomersPage.jsx:95-98 | toggling sends the customer's id with `isActive` negated, a missing status counting as inactive |
| CustomersPage.ToggleTwiceRestores | src/pages/superadmin/CustomersPage.jsx:95-98 | toggling twice from a known status sends the original status back |
| CustomersPage.CustomersTable.constructor | src/pages/superadmin/CustomersPage.jsx:40-45 | the table starts loading on page 0 of 10 rows with no customers and an empty search |
| CustomersPage.CustomersTable.Query | src/pages/superadmin/CustomersPage.jsx:56-60 | the request asks for page+1, the server counting from 1, with the page size and the search |
| CustomersPage.CustomersTable.Fetch | src/pages/superadmin/CustomersPage.jsx:53-69 | success stores `users || []` and `pagination.total || 0`; failure keeps both; loading ends |
| CustomersPage.CustomersTable.ChangePage | src/pages/superadmin/CustomersPage.jsx:71-73 | the pager sets the page, and the next request asks for that page plus one |
| CustomersPage.CustomersTable.ChangeRowsPerPage | src/pages/superadmin/CustomersPage.jsx:75-78 | a new page size goes back to page 0, so the next request asks for page 1 |
| CustomersPage.CustomersTable.SearchChange | src/pages/superadmin/CustomersPage.jsx:80-83 | a new search goes back to page 0, so the next request asks for page 1 of that search |
| CustomerViewPage.TotalSpent | src/pages/superadmin/CustomerViewPage.jsx:70 | the sum of `totalAmount || 0` is non-negative when every amount is |
| CustomerViewPage.StatsOf | src/pages/superadmin/CustomerViewPage.jsx:70-79 | totalOrders is the order count, pending counts 'pending' or 'processing', completed counts 'delivered', and pending plus completed never exceeds the total |
| CustomerViewPage.PendingAndCompletedDisjoint | src/pages/superadmin/CustomerViewPage.jsx:71-72 | no order is both pending and completed, so the two counts add up to at most the order count |
| CustomerViewPage.TotalSpentAppend | src/pages/superadmin/CustomerViewPage.jsx:70 | the spent total of two order lists joined is the sum of their totals |
| CustomerViewPage.StatusColor | src/pages/superadmin/CustomerViewPage.jsx:95-104 | a known status gets its colours, any other or missing status the pending colours |
| CustomerViewPage.ConfirmedLooksPending | src/pages/superadmin/CustomerViewPage.jsx:95-104 | a 'confirmed' or missing status is shown in the pending colours |
| CustomerViewPage.CustomerView.constructor | src/pages/superadmin/CustomerViewPage.jsx:42-50 | the page starts loading with no customer, no orders and zero stats |
| CustomerViewPage.CustomerView.Initials | src/pages/superadmin/CustomerViewPage.jsx:90-93 | the avatar shows at most two characters, none of them a lowercase letter, and 'U' while no customer is loaded or when the customer's name is empty or missing |
| CustomerViewPage.CustomerView.FetchCustomerData | src/pages/superadmin/CustomerViewPage.jsx:56-88 | with both requests fulfilled the customer, `orders || []` and their stats are stored; either failing leaves no customer and no orders; loading ends |
| MainLayout.VisibleMenu | src/components/layout/MainLayout.jsx:35-46 | the drawer lists the five common items first, followed by Sellers and Customers exactly for the superadmin |
| MainLayout.FullMenuPathsDistinct | src/components/layout/MainLayout.jsx:35-46 | no two items of the full menu share a path |
| MainLayout.AtMostOneActive | src/components/layout/MainLayout.jsx:239 | for any location and role at most one drawer item is highlighted |
| MainLayout.ClickedItemIsTheActiveOne | src/components/layout/MainLayout.jsx:239 | after navigating to an item's path that item and no other is highlighted |
| MainLayout.SubPageHighlightsNothing | src/components/layout/MainLayout.jsx:239 | a sub-page such as a product detail route highlights no item, the rule being exact equality |
| MainLayout.AvatarLetter | src/components/layout/MainLayout.jsx:70-73 | one character: 'A' for an empty or missing name, otherwise the name's first character uppercased, never a lowercase letter |
| MainLayout.RoleCaption | src/components/layout/MainLayout.jsx:183 | the superadmin caption exactly for the superadmin role, the admin caption otherwise ('Super Administrator' / 'Administrator' in the account menu, 'Super Admin' / 'Admin' in the footer at line 387) |
| MainLayout.UserCaption | src/components/layout/MainLayout.jsx:180 | the username when truthy, otherwise the fallback ('Admin User' in the account menu, 'Admin' in the footer at line 378); never empty with a non-empty fallback |
| MainLayout.FooterAgreesWithMenu | src/components/layout/MainLayout.jsx:378-387 | the footer and the account menu never show an empty name, show the same username when it is set, and both single out exactly the superadmin role |
| MainLayout.HandleLogout | src/components/layout/MainLayout.jsx:55-60 | the auth state is reset, the token cookie expired and `adminState` removed, and the target is '/login' |
| AdminViewPage.IsActive | src/pages/superadmin/AdminViewPage.jsx:69-73 | an item is active iff the relative path starts with '/' + its path; the dashboard also for '' and '/' |
| AdminViewPage.ClickedLocationIsRelative | src/pages/superadmin/AdminViewPage.jsx:70 | after clicking item k the relative path is '/' followed by the item's path |
| AdminViewPage.ClickHighlightsItemAndDashboard | src/pages/superadmin/AdminViewPage.jsx:69-73 | the clicked item is highlighted, and the dashboard always is too through the fall-through |
| AdminViewPage.OrdersPageHighlightsOnlyOrdersBesideDashboard | src/pages/superadmin/AdminViewPage.jsx:72 | on the orders view Orders is highlighted and Products and Analytics are not |
| AdminViewPage.AvatarLetter | src/pages/superadmin/AdminViewPage.jsx:64-67 | one character: 'A' without an admin or when the admin's name is empty, otherwise the admin name's first character uppercased |
| AdminViewPage.FindAdmin | src/pages/superadmin/AdminViewPage.jsx:301 | the result is the first admin with that id, and none exactly when no admin has it |
| AdminViewPage.FetchAdminInfo | src/pages/superadmin/AdminViewPage.jsx:295-318 | without an id the spinner stays; a failed request or a list-less envelope gives 'Failed to load admin data'; an absent id gives 'Admin not found'; otherwise that admin is shown |
| AdminViewPage.ListedAdminLoads | src/pages/superadmin/AdminViewPage.jsx:299-306 | a listed admin's id loads that admin with no error, whether the list came bare or wrapped |
| AdminSelector.AdminOption | src/components/ui/AdminSelector.jsx:51-63 | an admin's entry has its id, name and email, and the 'Inactive' chip exactly when inactive |
| AdminSelector.Options | src/components/ui/AdminSelector.jsx:45-63 | the overall view comes first, then one entry per admin in list order |
| AdminSelector.Shown | src/components/ui/AdminSelector.jsx:40 | the select shows the selected id when truthy, otherwise 'all' |
| AdminSelector.Reported | src/components/ui/AdminSelector.jsx:41 | the parent is told null exactly for 'all', otherwise the chosen value |
| AdminSelector.ChoiceRoundTrips | src/components/ui/AdminSelector.jsx:40-63 | choosing any entry and feeding the reported id back shows that same entry |
| AdminSelector.SelectionRoundTrips | src/components/ui/AdminSelector.jsx:40-41 | a non-empty id other than 'all' survives being shown and reported back; others come back as the overall view |
| AdminSelector.ShownIsAnOption | src/components/ui/AdminSelector.jsx:40-63 | the shown value is always one of the entries when the id is missing or listed |
| AdminSelector.FetchAdmins | src/components/ui/AdminSelector.jsx:17-31 | the fetched list is `response || []`, a failure leaves it empty, and loading ends |

## Left out

- Rendering: JSX, MUI styling, the recharts charts, icons and the locale date and number formatting are presentation only.
- HTTP: service calls (`src/services/*.js`, the fetch wrapper, the 401 redirect) are not modelled. Each response is an input to the method that consumes it, as a `Result`, an `Option` or a `Settled` value.
- Refetches: the page refetches after a save, a status update, a toggle or an auto-cancellation. The model returns a flag or a request value instead of issuing the second request.
- Browser primitives: `localStorage`, `sessionStorage` and the cookie jar are maps and sequences in `WebStorage.Browser`. The cookie string and its regular expression become an ordered list of name/value pairs, so whitespace is not modelled.
- Decoding: `JSON.parse` and `atob` are one abstract decoder passed as a parameter that either yields a payload or throws. No JWT signature is ever checked. The source does not check one either.
- Clock: the current time is a parameter. The two `Date.now()` reads in the hand-off are taken as one instant.
- Timers: the record is removed after 15 s, and the model states that delay and proves it equals the acceptance window. Also left out are the 5 s error auto-clear, the 8 s dashboard loading timeout and the redirect delays.
- Concurrency: `Promise.all`/`allSettled` ordering, the live-update `EventSource`, the StrictMode double-run guard and the `cancelled` flag of the admin dashboard effect are not modelled. Results arrive already settled.
- Floating point: these are left out:
  - the growth percentages and `toFixed`;
  - `revenue / 7` in the week rows, which drops the revenue column;
  - `Number()` on decimal prices, with prices and stock taken as integers;
  - all of the analytics page.
- Images: canvas and `FileReader` compression and `createObjectURL` are left out. `revokeObjectURL` becomes the list of URLs a handler returns. Compression is an input `Result`.
- Text: case mapping is ASCII only. There is no Unicode case folding or normalisation.
- Error handler: the stack, URL, user agent and user id of a log entry (its time is passed in as the string `now`, standing for `new Date().toISOString()`), the Notification API, `ErrorBoundary` rendering and console output are left out.
- Products editor: the `imageLoading` spinner flag and the detail dialog are left out.
- Customers page: `handleViewDetails`, which loads one customer into a details dialog, is not modelled. `handleToggleStatus` is modelled as the request it sends.
- Admin dashboard: the live stats handed to the live slice go through `LiveSlice.LiveState.SetLiveStats`; the dispatch itself is not modelled.
- Exceptions: JavaScript would throw on some malformed values, for instance a product without a `name` in the search filter or `order.items` that is not an array. These cases are excluded by the types: such fields are plain strings or sequences.
- Prototype keys: property lookups such as `statusColors[status]` are map lookups. Inherited keys like `constructor` are not modelled.
- Backend: the order lifecycle, the auto-cancellation job and refund processing run on the server. Only their response shapes appear here.
- Boilerplate: the landing and login pages, the auth layout, the error alert, `main.jsx`, the store persistence setup and the index re-export files hold no logic.
