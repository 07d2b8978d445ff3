# Storefront client state, modelled in Dafny

This project models the logic of a small React Native storefront: the client-side catalog
pagination controller (`ApiContext`), the product list screen's fetch rules and live title
filter (`ProductListScreen`), the authentication state and its failure-message rule
(`AuthContext`), and the credential check of the mock server's `POST /auth` endpoint
(`server.js`). Remote calls are not modelled. Each call is replaced by its outcome, passed
in as a parameter: a response body with its possibly-missing fields, or an error.

Files, one module each:

- `wrappers.dfy` (`Wrappers`): `Option`, for JavaScript fields that may be missing.
- `text.dfy` (`Text`): the JavaScript string semantics the rules use. This covers
  truthiness, `trim` with the ECMAScript whitespace set, `toLowerCase` and `includes`.
- `catalog.dfy` (`Catalog`): the catalog controller, as the class `ApiProvider` and the
  pure specification of its transitions (`RequestFor`, `Settled`, `CanLoadMore`).
- `product_list.dfy` (`ProductList`): the live filter, the decision rules of the screen
  handlers, and the class `ProductListScreen`, which drives an `ApiProvider`.
- `auth.dfy` (`Auth`): the class `AuthProvider` and the failure-message fallback chain.
- `mock_server.dfy` (`MockServer`): the `/auth` decision over a sequence of user records.

`fetchProducts` and `login` are asynchronous. Each is modelled as two methods, split at
its `await`: `Begin` sets `loading` and chooses the request, and `Settle` applies the
outcome and clears `loading`. `Fetch` and `Login` run both halves in sequence, so `loading`
is observably true between them. The append branch in the source uses functional state
updaters (`p => [...p, ...received]`, `prev => prev + 1`). `Settle` likewise applies the
outcome to the state as it is when the call returns.

Behaviour worth knowing, all modelled as the code does it:

- A reported total of 0 is stored as null (`res.data.total || null`). `canLoadMore` is
  then true again.
- A failed fetch leaves `query` unchanged, as well as the list, page and total.
- In search mode the request carries no offset, but the page counter still advances.
  Every end-of-list append re-issues the same search and appends the same results again.
  Nothing is de-duplicated, so the list can grow beyond the reported total
  (`Catalog.SearchAppendDuplicates`). The list is therefore not bounded by the total.
- The live filter tests blankness on the trimmed text but matches the untrimmed,
  lower-cased text.
- When the failed login response has a body, its JSON serialization is a candidate ahead
  of the error's own message.

## Model

| member | source | states |
|---|---|---|
| `Text.Trim` | src/context/ApiContext.tsx:25 | `trim()` is a contiguous piece of the text; it is empty exactly when every character is ECMAScript whitespace, and otherwise starts and ends with a non-whitespace character |
| `Text.TrimStart` | src/context/ApiContext.tsx:25 | the leading-whitespace cut keeps a suffix, removes only whitespace and leaves no leading whitespace |
| `Text.TrimEnd` | src/context/ApiContext.tsx:25 | the trailing-whitespace cut keeps a prefix, removes only whitespace and leaves no trailing whitespace |
| `Text.IncludesIffOccurs` | src/screens/ProductListScreen.tsx:44 | `includes` holds exactly when the text occurs at some position |
| `Text.IncludesNeedsFirstChar` | src/screens/ProductListScreen.tsx:44 | a non-empty text can only be included where its first character occurs |
| `Catalog.ApiProvider.constructor` | src/context/ApiContext.tsx:8-13 | the provider starts with no products, page 0, a null total, an empty query and `loading` false |
| `Catalog.CanLoadMore` | src/context/ApiContext.tsx:53-56 | `canLoadMore` refuses only when a total is known and the list has reached it; in a consistent state before the first completed fetch it always allows more |
| `Catalog.Settled` | src/context/ApiContext.tsx:32-44 | a settled fetch is never loading; a failure changes nothing else; a success moves the page to at least 1, stores the received total and the search text, and gives a list as long as the received one (reset) or as the old one plus the received one (append) |
| `Catalog.ConsistentUnstartedIsInitial` | src/context/ApiContext.tsx:8-13 | under the consistency invariant, a state at page 0 is the initial one apart from `loading`, allows loading more, and a plain end-of-list listing then starts at offset 0 |
| `Catalog.InitialState` | src/context/ApiContext.tsx:8-13 | the initial state is consistent, and `canLoadMore` holds in it |
| `Catalog.RequestFor` | src/context/ApiContext.tsx:20-29 | the search request is chosen exactly when the text has a non-whitespace character, and carries the text verbatim; otherwise the listing uses limit 10 and skip `(reset ? 0 : page) * 10` |
| `Catalog.StoredTotal` | src/context/ApiContext.tsx:33 | a missing total and a total of 0 are both stored as null; any other total is kept, and is positive |
| `Catalog.ApiProvider.Begin` | src/context/ApiContext.tsx:17-29 | `loading` is set, the request follows `RequestFor` on the current page, and nothing else changes |
| `Catalog.ApiProvider.Settle` | src/context/ApiContext.tsx:31-50 | the new state is `Settled` of the old one; one "Failed to load products" toast on failure and none on success; `loading` false on both paths; consistency is kept |
| `Catalog.ApiProvider.Fetch` | src/context/ApiContext.tsx:17-51 | a whole fetch issues `RequestFor` of the page before the call, and leaves the state and toasts that `Settle` gives |
| `Catalog.ApiProvider.CanLoadMoreNow` | src/context/ApiContext.tsx:53-56 | true when the total is null; otherwise true exactly when fewer than `total` products are loaded |
| `Catalog.CanLoadMoreExactly` | src/context/ApiContext.tsx:53-56 | loading more is refused exactly when a total is known and the list has reached it |
| `Catalog.SettledConsistent` | src/context/ApiContext.tsx:32-44 | every settled fetch keeps the invariant: nothing is loaded at page 0, and a stored total is never 0 |
| `Catalog.ResetReplaces` | src/context/ApiContext.tsx:35-37 | a successful reset makes the list exactly the received one (empty when missing) and the page 1, whatever came before |
| `Catalog.AppendExtends` | src/context/ApiContext.tsx:38-41 | a successful append keeps the old list as a prefix, follows it with exactly the received items, and advances the page by one |
| `Catalog.FailureKeepsState` | src/context/ApiContext.tsx:45-50 | on failure the products, page, total and query are unchanged, and `loading` is false |
| `Catalog.SuccessRecordsTotalAndQuery` | src/context/ApiContext.tsx:43-44 | on success the total is the stored received total and the query is the search text verbatim |
| `Catalog.AppendAllAdvances` | src/context/ApiContext.tsx:38-43 | after n successful appends the page has advanced by n, and the list is the old one followed by every received list in order |
| `Catalog.AppendRequestsAreConsecutive` | src/context/ApiContext.tsx:20-28 | the k-th append of a run requests the page at cursor + k, so listing offsets are consecutive multiples of 10 |
| `Catalog.SearchIgnoresCursor` | src/context/ApiContext.tsx:25-26 | with a non-blank search text, the request does not depend on the page |
| `Catalog.SearchAppendsRepeat` | src/context/ApiContext.tsx:25-29 | in search mode every append of a run re-issues the same search request |
| `Catalog.SearchAppendDuplicates` | src/context/ApiContext.tsx:25-41 | after a partial search result, the allowed append re-requests the same search; appending the same results again keeps both copies, and the list exceeds the total |
| `ProductList.Filter` | src/screens/ProductListScreen.tsx:44 | the filtered list is no longer than the products, and every product in it has a lower-cased title including the query |
| `ProductList.FilterKeepsMatches` | src/screens/ProductListScreen.tsx:44 | the filter result is a subsequence of the products, and holds every copy of each product whose lower-cased title includes the query, and no others |
| `ProductList.LiveFilter` | src/screens/ProductListScreen.tsx:41-45 | blank typed text shows the products unchanged; otherwise it shows, in order, exactly the products whose lower-cased title (missing = "") includes the lower-cased untrimmed text |
| `ProductList.FilterAppend` | src/screens/ProductListScreen.tsx:44 | filtering a concatenation is the concatenation of the filtered parts |
| `ProductList.DisplayedAfterAppend` | src/screens/ProductListScreen.tsx:41-45 | after an append, the shown list is the old shown list followed by the matching received items |
| `ProductList.RedShoeExample` | src/screens/ProductListScreen.tsx:41-45 | with "Red Shoe" and "Blue Hat" loaded, typing "red" shows only "Red Shoe" |
| `ProductList.OnEndReached` | src/screens/ProductListScreen.tsx:21-25 | a fetch is asked for exactly when not loading and `canLoadMore` holds, with reset false and the typed text |
| `ProductList.OnSearchSubmit` | src/screens/ProductListScreen.tsx:27-34 | always a reset; whitespace-only text submits "", other text is submitted untrimmed; the result selects search exactly when the text is non-blank |
| `ProductList.SubmittedRequest` | src/screens/ProductListScreen.tsx:27-34 | a submitted search requests the search endpoint with the untrimmed text exactly when the text is non-blank, and otherwise the listing from offset 0 |
| `ProductList.OnRefresh` | src/screens/ProductListScreen.tsx:19 | refresh is a reset whose empty search never uses the search endpoint, so at any page it requests the listing at offset 0 |
| `ProductList.OnMount` | src/screens/ProductListScreen.tsx:14-17 | the first load is a reset whose default empty search never uses the search endpoint, so it requests the listing at offset 0 |
| `ProductList.RefreshAndMountRestartListing` | src/screens/ProductListScreen.tsx:14-19 | refresh and the first mount issue the same reset with an empty search, requesting the listing at offset 0 |
| `ProductList.ExhaustedEndReachedIsIdle` | src/screens/ProductListScreen.tsx:21-25 | once a known total has been reached, reaching the end of the list fetches nothing |
| `ProductList.FiftySevenItems` | src/screens/ProductListScreen.tsx:21-25 | with total 57, the five end-of-list appends are allowed and request skip 10, 20, 30, 40 and 50; after all 57 are loaded, end-of-list fetches nothing |
| `ProductList.ProductListScreen.constructor` | src/screens/ProductListScreen.tsx:8-11 | the screen reads the given catalog controller and starts with empty typed text |
| `ProductList.ProductListScreen.ChangeText` | src/screens/ProductListScreen.tsx:57 | typing changes only the text; the catalog is untouched, and the shown list is the live filter of the loaded products |
| `ProductList.ProductListScreen.Mount` | src/screens/ProductListScreen.tsx:14-17 | the first load issues a reset listing at offset 0 and settles it |
| `ProductList.ProductListScreen.Refresh` | src/screens/ProductListScreen.tsx:19 | refresh issues a reset listing at offset 0 and settles it |
| `ProductList.ProductListScreen.EndReached` | src/screens/ProductListScreen.tsx:21-25 | a request is issued exactly when not loading and more can be loaded; it is then an append with the typed text, and otherwise nothing changes |
| `ProductList.ProductListScreen.SearchSubmit` | src/screens/ProductListScreen.tsx:27-34 | a reset that searches for the untrimmed text exactly when it is non-blank, and otherwise lists from offset 0 |
| `Auth.AuthProvider.constructor` | src/context/AuthContext.tsx:19-21 | the provider starts with no token, `initializing` true and `loading` false |
| `Auth.AuthProvider.LoadToken` | src/context/AuthContext.tsx:24-36 | a stored token is adopted only when the store was read and the value is non-empty; `initializing` ends false either way |
| `Auth.LoginRequestFor` | src/context/AuthContext.tsx:45-68 | on the web the fixed mock credentials are sent, ignoring the arguments; on a device, the given email and password |
| `Auth.AuthProvider.BeginLogin` | src/context/AuthContext.tsx:39-68 | `loading` is set and the request follows `LoginRequestFor` |
| `Auth.AuthProvider.FinishLogin` | src/context/AuthContext.tsx:72-97 | a response with a non-empty token sets it and stores it under "token"; any other outcome leaves the token and the store unchanged; the alert is `LoginAlert`; `loading` ends false |
| `Auth.AuthProvider.Login` | src/context/AuthContext.tsx:39-98 | a whole login: the request of `LoginRequestFor`, and the token, store, alert and `loading` that `FinishLogin` gives |
| `Auth.LoginAlert` | src/context/AuthContext.tsx:72-94 | there is no alert exactly when a non-empty token came back and was stored; a rejected call alerts "Login failed: " and the `UserMessage` of its body and message; a response without a token alerts "Login failed: Authentication failed: no token returned"; a failed store write alerts "Login failed: " and the write error's message (or "Unknown error") |
| `Auth.FirstTruthy` | src/context/AuthContext.tsx:92-93 | the reference rule: when some candidate is non-empty, the result is the first non-empty candidate (every earlier one empty); when all are empty, the fallback |
| `Auth.ServerMessage` | src/context/AuthContext.tsx:92 | no body gives the falsy ""; a body gives the first non-empty of its `message`, `error` and `errors`, else its JSON serialization, and is empty only when all four are |
| `Auth.UserMessage` | src/context/AuthContext.tsx:92-93 | the message is never empty; it is the server's message when that is non-empty, else the error's own message when non-empty, else "Unknown error" |
| `Auth.UserMessageIsFirstPresent` | src/context/AuthContext.tsx:92-93 | the failure message is the first present one of `message`, `error`, `errors`, the body's JSON (with a body only) and the error's message, else "Unknown error"; it is never empty |
| `Auth.AuthProvider.Logout` | src/context/AuthContext.tsx:100-103 | the token becomes null and the "token" key is removed from the store, nothing else in it |
| `MockServer.FindFirst` | server.js:21-23 | the lookup finds the first matching record, and finds none exactly when no record matches |
| `MockServer.Answer` | server.js:21-27 | one lookup answers 200 with the token of the first matching record, and 400 "Invalid credentials" when no record matches |
| `MockServer.Authenticate` | server.js:13-42 | the answer is 200 with a token body or 400 with "Invalid credentials" or "Missing credentials" |
| `MockServer.UsernameLookup` | server.js:20-28 | with a username and password, the answer is the first record matching both, or 400 "Invalid credentials" |
| `MockServer.UsernameTakesPriority` | server.js:20-28 | with a username and password given, the email has no effect: a failed username match answers "Invalid credentials" |
| `MockServer.EmailLookup` | server.js:31-39 | without a username, an email and password answer with the first record matching both, or 400 "Invalid credentials" |
| `MockServer.MissingPairs` | server.js:41 | when neither pair is complete (empty strings count as missing), the answer is 400 "Missing credentials" |
| `MockServer.TokenNeedsPassword` | server.js:20-39 | a token is only returned from a record whose password equals the one sent |

The records are an input of `MockServer.Authenticate` and no member can change them.
The same holds of `products` for the live filter.

## Left out

- HTTP, URLs and the request interceptor (`src/services/api.ts`). Each remote call is an
  outcome parameter. The 5-second timeout and `encodeURIComponent` of the search term are
  not modelled. `Catalog.Request` records the raw term.
- Concurrency between overlapping fetches and logins. The screen methods run each fetch
  to completion. `Begin`/`Settle` can be interleaved by a caller, but the render-time
  capture of `page` by the handler closures is not modelled.
- Persistence mechanics of AsyncStorage. The store is a `map<string, string>` field. A
  failed read at start-up is the `ReadFailed` outcome, and a failed write during login is
  the `storeError` parameter. A failed `removeItem` in logout is not modelled, because the
  source does not catch it.
- `Text.LowerChar`: only the ASCII letters A-Z are lower-cased, not full Unicode
  `toLowerCase`.
- Product fields other than `id` and `title`, and non-string titles. `total` is modelled
  as an optional natural number, so negative or fractional totals are not covered, and
  neither is a non-array `products` field.
- `MockServer.AuthBody`, `MockServer.AuthRecord`: the request's and the records' fields
  are missing or strings. JavaScript truthiness and `===` apply to any JSON value there
  (`password: 1` is truthy, `0` is falsy, and `1 === "1"` is false); non-string values are
  not modelled.
- `Auth.ErrorData`: `message` and `error` are missing or strings. The `||` chain applies
  to any JSON value (a non-empty object is truthy, `0` is falsy); non-string values are
  not modelled.
- `Auth.ErrorData`: `errors` is taken as its rendered text, so an empty array (truthy in
  JavaScript) is not distinguished from an empty string. `JSON.stringify` is a given
  string.
- The `localSearch` copy of the typed text, which an effect updates one render later. The
  model filters on the typed text directly.
- The loader shown while the first page loads, the toast display and its timers, the
  alert dialog itself (the model returns the alert text), and console logging.
- The mock server's reading of `db.json`, its json-server router and middleware, and
  `listen`/`PORT`. The user records are a parameter.
- Pure presentation: ProductCard, ProductDetailScreen, LoginScreen, AppNavigator, App and
  ThemeContext.
