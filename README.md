# Item-management client: a Dafny model of its state handling

This project models the state-handling core of a React client for a small
item-management service. It covers:

- the items page: filters, pagination, the list query and its
  reconciliation, add, edit and update, and the two-phase optimistic delete;
- the item detail popup and its one-fetch-per-open guard;
- the authenticated HTTP helper: header preparation, payload pass-through,
  and the session-expired classification of errors;
- the three Redux slices (items, auth, user);
- the login, registration, dashboard and profile screens, including what
  they write to and read from `localStorage`.

Every asynchronous handler is split at its `await`:

- a `Begin…` method runs up to the request and returns the request it sends;
- a `Finish…` method receives the settled call as an `Http.Outcome`: the
  payload (`Resolved`) or the error the helper rethrew (`Rejected`).

Component state and reducer drafts are classes whose fields the methods
assign. Each method's `ensures` states the whole new state through a ghost
`State()` value. The decisions inside the handlers are pure functions with
their own contracts, and lemmas relate them:

- the list query has exactly the truthy filters, in key order;
- a failed delete's rollback restores the same multiset of items when the
  identity is unique, with the item returned at the end of the list;
- what login stores as `userData`, the dashboard reads back unchanged
  (a proved JSON round trip);
- the reducers' find, replace and filter are characterised and combined.

Module layout, one per source file, plus three helpers:

| module | file | models |
|---|---|---|
| `Js` | js.dfy | string truthiness, `\|\|`, `String(undefined)`, `includes`, `trim` |
| `Browser` | browser.dfy | `localStorage`, the toast argument, a picked `File` |
| `Http` | http.dfy | src/api/axiosHelper.js |
| `Items` | items.dfy | src/components/items/items.js |
| `Popup` | popup.dfy | src/components/items/ItemPopup.js |
| `ItemsSlice`, `AuthSlice`, `UserSlice` | items_slice.dfy, auth_slice.dfy, user_slice.dfy | the three slices under src/store/slices/ |
| `UserDataJson` | user_data_json.dfy | the `userData` text, as `JSON.stringify` writes it and `JSON.parse` reads it |
| `Login`, `Register`, `Dashboard`, `Profile` | login.dfy, register.dfy, dashboard.dfy, profile.dfy | the four screens |

Collaborators the code cannot see become parameters or results:

- The transport's answer is an `Outcome` parameter.
- The stored token is read from a `Browser.LocalStorage` object.
- Toasts are returned as the `Toast` the handler would display.
- A re-fetch that a handler triggers is returned as a flag or as the
  filters it would use.

## Model

| member | source | states |
|---|---|---|
| Js.Or | src/components/items/items.js:87 | `a \|\| b` on strings: the first operand when it is non-empty, else the second; the result is non-empty when the fallback is |
| Js.NumberOr | src/components/items/items.js:82-84 | `x \|\| d` on an optional number: an absent value or 0 falls back to `d`, anything else is kept; with a non-zero fallback the result is never 0, so the page numbers a fetch stores are never 0 |
| Js.ToJsString | src/components/login/login.js:43 | `String(v)`: a string is kept, `undefined` becomes the text `undefined`; the result is falsy only for a present empty string, so a missing value turns into a truthy text |
| Js.OccursInConcat | src/api/axiosHelper.js:90 | an occurrence of a text survives anything written before or after it, shifted by the length of the prefix |
| Js.ContainsIffOccurs | src/api/axiosHelper.js:91 | the left-to-right `includes` scan answers true exactly when the substring occurs at some index |
| Js.Trim | src/components/login/login.js:35-36 | `trim()` yields an infix of the input, everything cut off is ECMAScript whitespace, and the result neither starts nor ends with whitespace |
| Js.TrimIdempotent | src/components/register/register.js:42-44 | trimming a trimmed text changes nothing |
| Js.TrimIgnoresPadding | src/components/register/register.js:42-44 | trimming ignores whitespace padding on either side: `(a + s + b).trim()` is `s.trim()` when `a` and `b` are whitespace |
| Js.TrimAllWhitespace | src/components/login/login.js:35-36 | a text made only of whitespace trims to the empty text |
| Browser.LocalStorage.constructor | src/api/axiosHelper.js:18 | a store with no key: every `getItem` reads `null` |
| Browser.LocalStorage.SetItem | src/components/login/login.js:43 | after `setItem`, `getItem` of that key reads the value back and every other key reads what it read before |
| Browser.LocalStorage.RemoveItem | src/pages/Dashboard/Dashboard.js:9-10 | after `removeItem`, `getItem` of that key reads `null`, every other key reads what it read before, and removing an absent key changes nothing |
| Http.Accepted | src/components/items/items.js:166 | a reply with `success` is accepted; one without is accepted exactly when its status is 200 |
| Http.EndPoint | src/components/items/ItemPopup.js:29 | the endpoint text a helper receives starts with the path; with a query, `?` and the `key=value` pairs follow; a one-pair query ends it with `key=value` |
| Http.RequestConfig.constructor | src/api/axiosHelper.js:16-17 | the interceptor's `config` carries the request and starts with no headers |
| Http.PrepareHeaders | src/api/axiosHelper.js:18-27 | `Authorization` becomes `Bearer <token>` iff the stored token is truthy and is untouched otherwise; `Content-Type: application/json` is set iff the body is JSON data (not FormData, not absent) and is untouched otherwise; no other header changes |
| Http.RequestConfig.Intercept | src/api/axiosHelper.js:16-32 | the request interceptor updates `config.headers` in place to `PrepareHeaders` of the old headers, the stored token and the request's body |
| Http.HandleError | src/api/axiosHelper.js:88-99 | the error is rethrown unchanged; the session-expired signal is raised iff the code is 419 and `/login` occurs nowhere in the path |
| Http.InterceptResponse | src/api/axiosHelper.js:35-40 | the response interceptor passes a success and a rejection through unchanged |
| Http.Settle | src/api/axiosHelper.js:47-85 | a delivered response yields its payload unchanged with no signal; a failure reaches the caller as the same error, with the signal `HandleError` decides |
| Http.ErrorMessage | src/components/items/items.js:90 | `error.response.data.message \|\| error.message \|\| fallback`, case by case; never empty when the fallback is not |
| Http.LoginPathNeverSignals | src/api/axiosHelper.js:91-93 | a failure on any path starting with `/login` never raises the signal, whatever the code |
| Http.LoginInEndPointNeverSignals | src/api/axiosHelper.js:90-93 | a `/login` anywhere inside a value spliced into the endpoint text suppresses the signal, whatever the code |
| Items.Key | src/components/items/items.js:251 | `itemId \|\| id`: a truthy `itemId` wins, otherwise `id` as it is (absent or empty); the identity is truthy iff one of the two is |
| Items.KeepTruthy | src/components/items/items.js:70-74 | the `forEach` keeps exactly the entries with truthy values (`""` and 0 dropped) and nothing else |
| Items.KeepTruthyAppend | src/components/items/items.js:70-74 | filtering a concatenation filters each part, so the order of kept entries is the order of the keys |
| Items.KeepTruthyCons | src/components/items/items.js:70-74 | filtering a list with a head keeps the head iff its value is truthy |
| Items.ListQuery | src/components/items/items.js:67-74 | the query holds exactly the truthy filter values, at most one per filter |
| Items.ListRequest | src/components/items/items.js:76-77 | a GET without data whose endpoint is `/get_items?` followed by the query string, `?` included when no filter is truthy |
| Items.ListQueryExact | src/components/items/items.js:67-76 | the list query is exactly the truthy values among search, minPrice, maxPrice, page and limit, in that order |
| Items.IndexOfKey | src/components/items/items.js:251 | the first index whose `itemId \|\| id` equals the key, or -1 iff there is none |
| Items.FindByKey | src/components/items/items.js:251 | `find` gives nothing exactly when no item has the identity, and otherwise an item of the list under that identity |
| Items.Without | src/components/items/items.js:253 | the optimistic filter keeps exactly the items whose `itemId \|\| id` differs from the key |
| Items.Matching | src/components/items/items.js:253 | the items the filter drops are exactly those under the key |
| Items.PartitionByKey | src/components/items/items.js:251-253 | kept and dropped items together are the list, as a multiset |
| Items.FoundIsFirstMatch | src/components/items/items.js:251-253 | the item `find` returns is the first of those the filter drops |
| Items.RollbackRestores | src/components/items/items.js:251-273 | removing by key and appending the found item changes the length by 1 minus the matches, and restores the multiset when the key is unique |
| Items.WithoutNoMatch | src/components/items/items.js:251-254 | with nothing found under the key the list is unchanged |
| Items.FailedDeleteRestoresItems | src/components/items/items.js:251-273 | when exactly one item has the identity, `find` returns an item, and removing it and appending it back on failure leaves the same multiset of items |
| Items.FormComplete | src/components/items/items.js:142 | the required-field guard passes iff title, description and price are all truthy |
| Items.ItemFormData | src/components/items/items.js:149-156 | the FormData holds title, description and price as typed, in that order, and an `image` entry exactly when a file is selected, after them |
| Items.UpdateAccepted | src/components/items/items.js:221 | update accepts on `success` alone, and every reply it accepts is one add accepts |
| Items.DeleteItemRequest | src/components/items/items.js:257 | a DELETE without data whose endpoint is `/delete_item?itemId=<target>` |
| Items.UpdateItemRequest | src/components/items/items.js:205-219 | a PUT of the given data whose endpoint is `/update_item/<identity>`, with `undefined` for a missing identity |
| Items.LoginIdentityNeverSignals | src/components/items/items.js:215-257 | an identity containing `/login` suppresses the session-expired signal for its delete and its update, whatever the server answers |
| Items.UpdateStricterThanAdd | src/components/items/items.js:221 | every reply update accepts, add accepts; `{status: 200}` without `success` is accepted by add and refused by update |
| Items.UploadsGetNoContentType | src/components/items/items.js:215-219 | add and update send FormData, so the interceptor sets no content type, and the update's third argument never reaches it |
| Items.ItemsPage.constructor | src/components/items/items.js:14-47 | every hook starts at its initial value: filters `{'', '', '', 1, 9}`, pagination `{1, 1, 0}` |
| Items.ItemsPage.HandleInputChange | src/components/items/items.js:49-55 | one form field takes the value; nothing else changes |
| Items.ItemsPage.HandleFileChange | src/components/items/items.js:57-60 | only the selected file changes |
| Items.ItemsPage.OpenAddForm | src/components/items/items.js:293 | only `showAddForm` becomes true |
| Items.ItemsPage.BeginFetch | src/components/items/items.js:63-77 | marks the list as fetching and issues a GET of the list path with exactly the truthy filters |
| Items.ItemsPage.FinishFetch | src/components/items/items.js:79-96 | on `success` items and pagination are replaced (`items \|\| []`, `currentPage \|\| 1`, `totalPages \|\| 1`, `totalItems \|\| 0`); otherwise both are kept and the message follows the source's precedence; fetching ends either way |
| Items.ItemsPage.HandleFilterChange | src/components/items/items.js:111-118 | the named filter takes the value, the page becomes 1, `limit` and the other filters are kept; a re-fetch happens iff a dependency of the effect at line 102 changed |
| Items.ItemsPage.ClearFilters | src/components/items/items.js:121-129 | filters become the defaults whatever they were, `limit` included; nothing else changes; a re-fetch iff search, minPrice, maxPrice or page differed from the defaults |
| Items.ItemsPage.HandlePageChange | src/components/items/items.js:132-137 | only the page changes, with no bounds check; a re-fetch iff the page differs |
| Items.ItemsPage.BeginAddItem | src/components/items/items.js:139-164 | a missing title, description or price gives the warning, no request and no state change; otherwise loading starts and the FormData (image only with a file) is posted |
| Items.ItemsPage.FinishAddItem | src/components/items/items.js:164-182 | on `success \|\| status === 200` the form is reset, the file dropped, the form hidden and one re-fetch with the call's filters requested; otherwise the form is kept; loading ends |
| Items.ItemsPage.HandleEditItem | src/components/items/items.js:184-192 | the item becomes the one edited, its fields fill the form, and the form is shown |
| Items.ItemsPage.BeginUpdateItem | src/components/items/items.js:195-219 | as add's validation; with no item being edited the TypeError's text is reported, nothing is sent and loading ends false; otherwise loading starts and the FormData is PUT to `/update_item/<itemId \|\| id>`, `undefined` when neither is present |
| Items.ItemsPage.FinishUpdateItem | src/components/items/items.js:221-237 | on `success` alone the form, file and edited item are cleared, the form hidden and one re-fetch requested; otherwise the form is kept; loading ends |
| Items.ItemsPage.HandleCancel | src/components/items/items.js:280-285 | form emptied, file and edited item dropped, form hidden; nothing else changes |
| Items.ItemsPage.HandleDeleteItem | src/components/items/items.js:239-244 | only the target and the confirmation flag change |
| Items.ItemsPage.CancelConfirm | src/components/items/items.js:497 | cancelling clears only `confirmOpen` and `itemToDelete` |
| Items.ItemsPage.BeginConfirmDelete | src/components/items/items.js:246-257 | the confirmation closes; a falsy target changes nothing else; otherwise every item under the target is removed before the DELETE `?itemId=<target>` and the first of them is kept |
| Items.ItemsPage.FinishConfirmDelete | src/components/items/items.js:258-277 | on `success` the list stays as it is; on refusal or rejection the kept item is appended to the current list; the target is cleared in every branch |
| Popup.DetailRequest | src/components/items/ItemPopup.js:29 | a GET without data whose endpoint is `/get_items?itemId=<id>` |
| Popup.LoginIdentityDetailNeverSignals | src/components/items/ItemPopup.js:29-30 | an identity containing `/login` suppresses the session-expired signal for its detail fetch, whatever the server answers |
| Popup.Classify | src/components/items/ItemPopup.js:31-37 | an item is shown iff the answer has `success` and a non-empty `items`, and it is `items[0]`; otherwise `res.message \|\| 'Item not found'`, or the error precedence with `'Failed to fetch item'` |
| Popup.ItemPopup.constructor | src/components/items/ItemPopup.js:7-12 | mounted closed with no identity: no item, not loading, error `''`, no fetch issued |
| Popup.ItemPopup.FetchEffect | src/components/items/ItemPopup.js:14-44 | closed or without an identity: the guard is cleared and nothing is fetched; open with the guard set: nothing happens; otherwise loading, error `''`, item null, guard set and exactly one request |
| Popup.ItemPopup.CloseEffect | src/components/items/ItemPopup.js:47-54 | when closed: guard, item, error and loading are reset; when open: nothing changes |
| Popup.ItemPopup.Open | src/components/items/ItemPopup.js:14-54 | opening on a truthy identity issues exactly the detail request `itemId=<id>` and enters the loading state |
| Popup.ItemPopup.Rerun | src/components/items/ItemPopup.js:14-44 | while open, the same identity issues nothing and changes nothing; a new falsy identity clears the guard; a new truthy one is fetched only if nothing was fetched in this session |
| Popup.ItemPopup.Close | src/components/items/ItemPopup.js:47-54 | closing resets guard, item, error and loading |
| Popup.ItemPopup.Resolve | src/components/items/ItemPopup.js:30-40 | the classified answer sets the item or the error, and loading ends |
| Popup.ReopenFetchesAgain | src/components/items/ItemPopup.js:15-25 | open, re-render, close, reopen on one identity: the re-render issues nothing and the reopen issues the same request again |
| ItemsSlice.FirstIndexById | src/store/slices/itemsSlice.js:68 | `findIndex` on `id`: the first matching index, or -1 iff none matches |
| ItemsSlice.FindIndex | src/store/slices/itemsSlice.js:68 | the scan as a loop, with the same result as `FirstIndexById` |
| ItemsSlice.AssignAtFoundIndex | src/store/slices/itemsSlice.js:68-71 | the `findIndex` scan followed by an assignment at the found index yields exactly `ReplaceFirstById` of the list |
| ItemsSlice.ReplaceFirstById | src/store/slices/itemsSlice.js:67-75 | same length; only the first element with the payload's `id` is replaced |
| ItemsSlice.ReplaceFirstByIdAbsent | src/store/slices/itemsSlice.js:69-71 | with no matching `id` the list is unchanged |
| ItemsSlice.ReplaceFirstAt | src/store/slices/itemsSlice.js:68-71 | replacing the first match is assigning at the found index when there is one |
| ItemsSlice.RemoveAllById | src/store/slices/itemsSlice.js:87 | the filter keeps exactly the elements whose `id` differs |
| ItemsSlice.RemoveAllByIdAppend | src/store/slices/itemsSlice.js:87 | the filter distributes over concatenation, so the rest stays in order |
| ItemsSlice.RemoveAllByIdAbsent | src/store/slices/itemsSlice.js:87 | a list without that `id` is returned unchanged |
| ItemsSlice.RemoveAllByIdIdempotent | src/store/slices/itemsSlice.js:86-91 | deleting an `id` twice equals deleting it once |
| ItemsSlice.CreateThenDelete | src/store/slices/itemsSlice.js:52-91 | deleting the `id` of a just-created item undoes the create when that `id` was new |
| ItemsSlice.ItemsStore.constructor | src/store/slices/itemsSlice.js:3-11 | the initial state |
| ItemsSlice.ItemsStore.GetItemsStart | src/store/slices/itemsSlice.js:18-21 | loading true, error null, nothing else |
| ItemsSlice.ItemsStore.GetItemsSuccess | src/store/slices/itemsSlice.js:22-26 | items replaced by the payload, loading false, error null, nothing else |
| ItemsSlice.ItemsStore.GetItemsFailure | src/store/slices/itemsSlice.js:27-30 | loading false, error the payload; items and current item kept |
| ItemsSlice.ItemsStore.GetItemStart | src/store/slices/itemsSlice.js:33-36 | loading true, error null, nothing else |
| ItemsSlice.ItemsStore.GetItemSuccess | src/store/slices/itemsSlice.js:37-41 | current item the payload, loading false, error null |
| ItemsSlice.ItemsStore.GetItemFailure | src/store/slices/itemsSlice.js:42-45 | loading false, error the payload; items and current item kept |
| ItemsSlice.ItemsStore.CreateItemStart | src/store/slices/itemsSlice.js:48-51 | only its own flag true and error null |
| ItemsSlice.ItemsStore.CreateItemSuccess | src/store/slices/itemsSlice.js:52-56 | the payload appended: length plus one with the old items as prefix |
| ItemsSlice.ItemsStore.CreateItemFailure | src/store/slices/itemsSlice.js:57-60 | its flag false, error the payload |
| ItemsSlice.ItemsStore.UpdateItemStart | src/store/slices/itemsSlice.js:63-66 | only its own flag true and error null |
| ItemsSlice.ItemsStore.UpdateItemSuccess | src/store/slices/itemsSlice.js:67-75 | items become `ReplaceFirstById` of the old ones (assigned through `AssignAtFoundIndex`); current item the payload in every case; nothing else changes |
| ItemsSlice.ItemsStore.UpdateItemFailure | src/store/slices/itemsSlice.js:76-79 | its flag false, error the payload |
| ItemsSlice.ItemsStore.DeleteItemStart | src/store/slices/itemsSlice.js:82-85 | only its own flag true and error null |
| ItemsSlice.ItemsStore.DeleteItemSuccess | src/store/slices/itemsSlice.js:86-91 | every element with the `id` removed, current item null |
| ItemsSlice.ItemsStore.DeleteItemFailure | src/store/slices/itemsSlice.js:92-95 | its flag false, error the payload |
| ItemsSlice.ItemsStore.ClearCurrentItem | src/store/slices/itemsSlice.js:98-100 | only the current item changes |
| ItemsSlice.ItemsStore.ClearItemsData | src/store/slices/itemsSlice.js:103-111 | the initial state, whatever came before |
| ItemsSlice.ItemsStore.ClearItemsError | src/store/slices/itemsSlice.js:114-116 | only the error changes |
| AuthSlice.AuthStore.constructor | src/store/slices/authSlice.js:3-10 | the initial state |
| AuthSlice.AuthStore.LoginStart | src/store/slices/authSlice.js:17-20 | loading true and error null, nothing else |
| AuthSlice.AuthStore.LoginSuccess | src/store/slices/authSlice.js:21-28 | authenticated, token and user from the payload, loading false, error null, login dialog hidden |
| AuthSlice.AuthStore.LoginFailure | src/store/slices/authSlice.js:29-35 | signed out, token and user null, loading false, error the payload; `loginDisplay` kept |
| AuthSlice.AuthStore.Logout | src/store/slices/authSlice.js:38-45 | the initial state, whatever came before |
| AuthSlice.AuthStore.SetAuthToken | src/store/slices/authSlice.js:48-51 | token the payload, authenticated iff it is truthy; user kept |
| AuthSlice.AuthStore.SetUser | src/store/slices/authSlice.js:54-56 | only the user changes |
| AuthSlice.AuthStore.SetLoginDisplay | src/store/slices/authSlice.js:59-61 | only `loginDisplay` changes |
| AuthSlice.AuthStore.ClearError | src/store/slices/authSlice.js:64-66 | only the error changes |
| AuthSlice.AuthStore.SetLoading | src/store/slices/authSlice.js:69-71 | only loading changes |
| UserSlice.UserStore.constructor | src/store/slices/userSlice.js:3-8 | the initial state |
| UserSlice.UserStore.GetUserProfileStart | src/store/slices/userSlice.js:15-18 | loading true, error null, profile kept |
| UserSlice.UserStore.GetUserProfileSuccess | src/store/slices/userSlice.js:19-23 | profile the payload, loading false, error null |
| UserSlice.UserStore.GetUserProfileFailure | src/store/slices/userSlice.js:24-27 | loading false, error the payload, profile kept |
| UserSlice.UserStore.UpdateUserProfileStart | src/store/slices/userSlice.js:30-33 | update flag true, error null, profile kept |
| UserSlice.UserStore.UpdateUserProfileSuccess | src/store/slices/userSlice.js:34-38 | profile the payload, update flag false, error null |
| UserSlice.UserStore.UpdateUserProfileFailure | src/store/slices/userSlice.js:39-42 | update flag false, error the payload, profile kept |
| UserSlice.UserStore.ClearUserData | src/store/slices/userSlice.js:45-50 | the initial state |
| UserSlice.UserStore.ClearUserError | src/store/slices/userSlice.js:53-55 | only the error changes |
| UserDataJson.Encode | src/components/login/login.js:46-50 | the stored text is an object literal, never empty and never the text `undefined` |
| UserDataJson.Decode | src/pages/Dashboard/Dashboard.js:15 | only a text whose first non-space character is `{` is read; the empty text and `undefined` are not |
| UserDataJson.DecodeEncode | src/pages/Dashboard/Dashboard.js:15 | parsing the text login stored gives back exactly the record it stored, absent fields included |
| UserDataJson.ReadEscaped | src/pages/Dashboard/Dashboard.js:15 | every escaped string followed by its closing quote reads back as itself |
| Login.CanSubmit | src/components/login/login.js:31 | the guard passes iff both fields are truthy before trimming |
| Login.LoginBody | src/components/login/login.js:34-37 | the body is the trimmed password and the trimmed email, nothing else |
| Login.StorageAfterLogin | src/components/login/login.js:43-53 | `token` holds `String(res.token)`; `userData` holds the JSON of `{uid: userId, username, email}` iff the answer has a user and is removed otherwise; no other key changes |
| Login.LoginToast | src/components/login/login.js:41-62 | success iff `success \|\| status === 200`, with `res.message \|\| 'Login successful!'`; otherwise `res.message \|\| 'Login failed'` or the error precedence with `'Login failed'` |
| Login.MissingTokenSendsUndefined | src/components/login/login.js:43 | an accepted answer without a token stores the text `undefined`, and later requests carry `Bearer undefined` |
| Login.LoginNeverExpiresSession | src/components/login/login.js:39 | a rejected login never raises the session-expired signal |
| Login.WhitespaceFieldSentEmpty | src/components/login/login.js:31-37 | an email made only of whitespace passes the guard and is sent empty; padding around the password is never sent |
| Login.LoginPage.constructor | src/components/login/login.js:14-18 | the form starts empty and not loading |
| Login.LoginPage.HandleChange | src/components/login/login.js:20-26 | one field takes the value |
| Login.LoginPage.BeginLogin | src/components/login/login.js:28-68 | an empty email or password (untrimmed) gives the warning and no request; otherwise loading starts and the trimmed body is posted to `/login` |
| Login.LoginPage.FinishLogin | src/components/login/login.js:39-65 | on acceptance storage becomes `StorageAfterLogin`; on refusal or rejection storage is untouched; loading ends in every case |
| Register.Check | src/components/register/register.js:33-37 | incomplete iff some field is empty; a mismatch iff complete and the untrimmed password differs from its confirmation; ready otherwise |
| Register.RegisterBody | src/components/register/register.js:41-45 | the body is the trimmed name, email and password; no `confirmPassword` |
| Register.RegisterToast | src/components/register/register.js:50-59 | success iff `success \|\| status === 200`; the messages and fallbacks of each branch |
| Register.MatchIgnoresTrimming | src/components/register/register.js:32-36 | a complete form whose password and confirmation differ only in whitespace padding is refused as a mismatch |
| Register.ReadySendsTrimmedPassword | src/components/register/register.js:32-44 | a form that passes both checks sends the trimmed confirmation as the password, with any whitespace padding of the typed password dropped |
| Register.RegisterPage.constructor | src/components/register/register.js:14-20 | the four fields start empty and not loading |
| Register.RegisterPage.HandleChange | src/components/register/register.js:22-28 | one field takes the value |
| Register.RegisterPage.BeginRegister | src/components/register/register.js:30-47 | incomplete or mismatching forms get their warning and no request; otherwise loading starts and the body is posted to `/register` |
| Register.RegisterPage.FinishRegister | src/components/register/register.js:47-62 | the notification of `RegisterToast`; loading ends after every request |
| Dashboard.ReadUserData | src/pages/Dashboard/Dashboard.js:14-15 | absent, empty, or the text `undefined` reads as `{}` without parsing; any other text is parsed |
| Dashboard.DisplayedUsername | src/pages/Dashboard/Dashboard.js:29 | the stored username when present and non-empty, else `N/A` |
| Dashboard.LoginThenDashboard | src/pages/Dashboard/Dashboard.js:14-15 | after an accepted login the dashboard reads exactly the user login stored, or `{}` when there was none |
| Dashboard.HandleLogout | src/pages/Dashboard/Dashboard.js:8-12 | `token` and `userData` are gone whatever they held, every other key is kept, and the greeting becomes `N/A` |
| Dashboard.Greeting | src/pages/Dashboard/Dashboard.js:29 | with no stored `userData` the greeting is `N/A` |
| Profile.Classify | src/components/profile/profile.js:21-33 | shown iff accepted with a user, showing that user's name, username and email; accepted without a user surfaces the TypeError's text; otherwise `res.message \|\| 'Failed to fetch profile'` or the error precedence with `'Error fetching profile'` |
| Profile.ProfilePage.constructor | src/components/profile/profile.js:10-12 | no profile, not loading, popup hidden |
| Profile.ProfilePage.BeginProfile | src/components/profile/profile.js:17-20 | loading starts and the profile is requested |
| Profile.ProfilePage.Mount | src/components/profile/profile.js:44-48 | with `autoShow` the profile is fetched at once, otherwise nothing happens |
| Profile.ProfilePage.FinishProfile | src/components/profile/profile.js:20-36 | a shown profile replaces the old one and opens the popup; otherwise profile and popup are kept and the message is notified; loading ends in every case |
| Profile.ProfilePage.HandleClose | src/components/profile/profile.js:39-41 | only the popup flag changes |

## Left out

- Rendering, CSS, ConfirmModal.js and PublicRoute.js are not modelled: they are presentation and routing.
- store.js is not modelled: it is Redux wiring only. The endpoint constants of endpoints.js are inlined.
- `navigate(...)`, `console.log` and `console.warn` are not modelled. A toast is returned as the text the handler would display, not shown.
- The axios transport, its base URL and its timeout are not modelled. What it delivers enters as a `Transport` or `Outcome` value.
- The components receive the settled call directly. The session-expired signal `Http.Settle` computes is only logged by the source, so it feeds nothing back.
- React effect scheduling is replaced by explicit calls:
  - the list effect is the `refetch` result of the filter handlers, and the list fetch is `BeginFetch`/`FinishFetch`;
  - the popup's effects run inside `Open`, `Rerun` and `Close`;
  - `gridKey`, `isAnimating` and the animation `setTimeout` are not modelled.
- Async interleaving is left to the caller of the `Begin…`/`Finish…` pairs. As in the source, no stale list response is discarded: whichever fetch finishes last wins.
- Percent-encoding by `URLSearchParams` is not modelled. `Http.EndPoint` writes every query value as it is. That is exact for the detail and delete requests, which the source writes with template literals, but not for a list query whose filter text holds reserved characters: there the source sends `%2Flogin` for `/login`, which does not suppress the session-expired signal.
- An identity that is `null` rather than absent is not modelled: a template literal would write it as `null`.
- FormData and File contents are not modelled. A file is an opaque value, and a FormData is the list of its `append` calls.
- Price formatting is not modelled: `item.price.toString()` is the price text itself, because the price is kept as text.
- NaN and non-integer numbers are not modelled. Numeric answer fields are optional integers.
- A null or non-object response body (the `res?.` chains) is not modelled. An answer is a record whose absent fields are `false`, `None` or `""`.
- The TypeError texts (`NullEditingItemMessage`, `MissingUserMessage`) are engine-dependent. V8's wording is used.
- UserDataJson.Decode: recognises only JSON objects whose members are all strings. Other JSON values, numbers in fields and surrogate pairs in `\u` escapes are reported as unrecognised. On those texts `JSON.parse` either throws or yields a value the dashboard would then read.
- Dashboard.Greeting: no greeting is given for an unrecognised text, because the render would crash or show a value the model does not represent.
- AuthSlice and UserSlice: the user record and the profile payload are type parameters, and error payloads are optional strings.
- The slices are not connected to the screens: no component in the modelled files dispatches their actions.
- Profile's `autoShow` comes from the router's location state. It is a parameter of `Mount`.

## Behaviour worth knowing

These follow from the code as written and are modelled as such:

- Identities are not normalised when items arrive. `itemId || id` is computed at each use (identity, delete, update).
- `clearFilters` resets `limit` to 9 as well, and `limit` is not a dependency of the list effect (src/components/items/items.js:102).
- `handlePageChange` checks no bounds. Only the disabled buttons keep the page in range.
- Update accepts a reply only on `success`, while add, login, registration and profile also accept `status === 200` (`Items.UpdateStricterThanAdd`).
- An accepted login without a token stores the text `undefined`, which is truthy (`Login.MissingTokenSendsUndefined`).
- The path `handleError` checks for `/login` includes the query string and the identity spliced into the update path. The delete, update and detail requests build theirs without encoding, so an identity containing `/login` suppresses the signal (`Items.LoginIdentityNeverSignals`, `Popup.LoginIdentityDetailNeverSignals`).
- An item with neither `itemId` nor `id` is updated at `/update_item/undefined` (`Items.UpdateItemRequest`).
- A rollback after a failed delete appends the first removed item only. With duplicate identities the others are lost (`Items.RollbackRestores`).
