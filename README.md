# Apartment map and account pages: a verified model

This project models the logic of a Next.js front end with two parts. One is an
apartment map with markers; the other is a set of account pages: login, register,
"my page", and a session context with a refresh-and-retry request wrapper.

- **Marker selection** (`MarkerSelection`, `PriceHistory`, `MapView`). Each
  apartment's price history is sorted newest first, in place. The head record is
  the latest price. It must pass the price window, the area match and the
  deal-type requirement. The apartments that pass get markers, in input order.
  The map component (`MapView.NaverMapEx`) keeps the filter, the price data and
  the markers as fields.
- **Error lines** (`ErrorMessages`, `Text`, `Js`). A rejected server answer's
  `errors` array, or its `message`, or a fixed text, becomes a list of messages.
  The list is joined with ", " into an `Error` message and split on ", " again
  for display.
- **Pages** (`Login`, `Register`, `MyPage`). Each page is a class whose fields are
  its state: loading flag, error lines, router calls, form fields, message. The
  submit handlers are split at the network boundary: `BeginSubmit` runs up to the
  first `await`, and `FinishSubmit` or `Handle…` runs once the answers are known.
- **Session** (`Auth`). `AuthContext` holds `isAuthenticated` and `user`.
  `checkAuthStatus` retries without bound while the server answers 401 and the
  refresh succeeds.
- **Request wrapper** (`Api`). One request with credentials. On a 401, one refresh,
  then one retry, or the error 'Authentication failed'. It is modelled as a
  function from the answers to a result and a trace of events.
- **Middleware** (`Middleware`). A request for '/mypage' without an `access_token`
  cookie is redirected to '/login'.

Every network answer is an input value: `Http.FetchOutcome` is a response (status
and body) or a thrown value, and a body either parses to a `Js.JsValue` or is
malformed. Nothing in the model performs I/O.

## Model

| member | source | states |
|---|---|---|
| PriceHistory.Insert | src/app/components/navermapEx.tsx:38 | inserting a record gives one more record and the same records plus the new one (multiset) |
| PriceHistory.SortByDateDesc | src/app/components/navermapEx.tsx:38 | the sort keeps the length and is a permutation of the history |
| PriceHistory.InsertKeepsDescending | src/app/components/navermapEx.tsx:38 | inserting into a newest-first list keeps it newest first |
| PriceHistory.SortIsDescending | src/app/components/navermapEx.tsx:38 | the comparator `b.Date - a.Date` puts the history newest first |
| PriceHistory.SortKeepsDescending | src/app/components/navermapEx.tsx:38 | a history already newest first is left exactly as it is (stability on equal dates) |
| PriceHistory.SortIdempotent | src/app/components/navermapEx.tsx:38 | sorting a second time changes nothing |
| PriceHistory.FirstLatest | src/app/components/navermapEx.tsx:38 | reference definition: the index of the first record whose date is the greatest |
| PriceHistory.SortHeadIsFirstLatest | src/app/components/navermapEx.tsx:38 | the head of the sorted history is the first record with the greatest date |
| MarkerSelection.LatestPrice | src/app/components/navermapEx.tsx:38-39 | the latest record of a complex; its meaning is stated by `MarkerSelection.LatestIsFirstNewest` |
| MarkerSelection.Excluded | src/app/components/navermapEx.tsx:41-44 | the four early returns; stated, negated, by `MarkerSelection.MarkerForIff`, `WindowIsInclusive` and `NumericAreaNeverMatches` |
| MarkerSelection.MarkerFor | src/app/components/navermapEx.tsx:37-100 | the callback's result for one apartment; stated by `MarkerSelection.MarkerForIff` and `DefaultFilterKeeps` |
| MarkerSelection.Kept | src/app/components/navermapEx.tsx:101 | what `filter(Boolean)` keeps of one result; stated through `MarkerSelection.SelectMembers` |
| MarkerSelection.Select | src/app/components/navermapEx.tsx:37-101 | the kept markers in apartment order; stated by `MarkerSelection.SelectMembers` and `SelectAppend` |
| MarkerSelection.LatestIsFirstNewest | src/app/components/navermapEx.tsx:38-39 | no latest price iff the complex has no history or an empty one; otherwise it is the first record with the greatest date |
| MarkerSelection.MarkerForIff | src/app/components/navermapEx.tsx:38-44 | an apartment gets a marker iff it has a latest record that lies in the inclusive window (unbounded max never excludes), the area is 'all' or strictly equal, and '매매'/'전세' find a nonzero deal/lease minimum; the marker carries that record |
| MarkerSelection.SelectAppend | src/app/components/navermapEx.tsx:37-101 | the markers of a concatenation are the markers of each part, in order |
| MarkerSelection.SelectMembers | src/app/components/navermapEx.tsx:37-101 | a marker is in the result iff some input apartment produces it; never more markers than apartments |
| MarkerSelection.DefaultFilterKeeps | src/app/components/navermapEx.tsx:15-44 | under {0, unbounded, 'all', 'all'} every apartment whose latest record has a non-negative minimum deal price is kept |
| MarkerSelection.WindowIsInclusive | src/app/components/navermapEx.tsx:41 | a minimum and maximum equal to the record's own prices do not exclude it |
| MarkerSelection.NumericAreaNeverMatches | src/app/components/navermapEx.tsx:42 | with an area selected, an apartment whose area is a number is never kept (`!==` against a string) |
| MapView.FailedFetchShowsNothing | src/app/components/navermapEx.tsx:29-31 | after a failed fetch the pass leaves no price data and selects no markers, whatever the filter |
| MapView.SortVisited | src/app/components/navermapEx.tsx:38 | the marker pass keeps the set of complexes in the price data |
| MapView.SortVisitedSorts | src/app/components/navermapEx.tsx:38 | after the pass every looked-up history is newest first with the same records, and every other history is untouched |
| MapView.SortVisitedNothing | src/app/components/navermapEx.tsx:105 | before the pass the price data is the fetched histories |
| MapView.SortVisitedStep | src/app/components/navermapEx.tsx:37-38 | one more apartment sorts exactly its own complex's history, if present |
| MapView.ResortVisited | src/app/components/navermapEx.tsx:38 | sorting an already visited history again yields the sorted history, so repeated complexes are harmless |
| MapView.SelectStep | src/app/components/navermapEx.tsx:37-101 | one more apartment appends its own marker (or nothing) after the earlier ones |
| MapView.SortVisitedTwice | src/app/components/navermapEx.tsx:38 | a pass over a list repeated twice leaves the same price data as one pass |
| MapView.NaverMapEx.constructor | src/app/components/navermapEx.tsx:11-15 | no map, default filter, no price data, no markers |
| MapView.NaverMapEx.InitializeMap | src/app/components/navermapEx.tsx:132-148 | the map is created at the fixed centre and zoom only when the container and the `naver` global exist |
| MapView.NaverMapEx.SetMinPrice | src/app/components/navermapEx.tsx:168 | replaces the minimum price and leaves the other three fields |
| MapView.NaverMapEx.SetMaxPrice | src/app/components/navermapEx.tsx:173 | replaces the maximum with a number and leaves the other three fields |
| MapView.NaverMapEx.SetArea | src/app/components/navermapEx.tsx:175 | replaces the area and leaves the other three fields |
| MapView.NaverMapEx.SetDealType | src/app/components/navermapEx.tsx:182 | replaces the deal type and leaves the other three fields |
| MapView.NaverMapEx.MarkerCallback | src/app/components/navermapEx.tsx:37-100 | sorts the apartment's history in the price data and returns exactly `MarkerFor` of it under the run's filter |
| MapView.NaverMapEx.CreateMarkers | src/app/components/navermapEx.tsx:35-102 | runs the callback over the apartments in order: the price data ends with every looked-up history sorted, and the markers are exactly `Select` of the apartments |
| MapView.NaverMapEx.Refresh | src/app/components/navermapEx.tsx:17-107 | without a map nothing changes; otherwise the price data is the fetched histories with each looked-up one sorted, and the markers are exactly `Select` of the apartments under the filter the run captured; a failed fetch leaves both empty |
| Js.TypeOf | src/app/login/page.tsx:46-47 | "object" iff null, array or object; "string" iff a string |
| Js.Get | src/app/login/page.tsx:44 | a property read throws a TypeError iff the value is null or undefined; only objects have the properties read |
| Js.OptionalGet | src/app/mypage/page.tsx:49-50 | `?.` gives undefined on null and undefined, and the property otherwise |
| Js.FirstValue | src/app/login/page.tsx:47 | `Object.values(v)[0]` throws iff null or undefined, is the first value of a non-empty object or array or the first character of a string, and undefined for numbers and booleans |
| Js.JoinText | src/app/login/page.tsx:55 | join writes a string as itself and null or undefined as the empty string |
| Text.Join | src/app/login/page.tsx:55 | a one-element list joins to its element |
| Text.IndexFrom | src/app/login/page.tsx:66 | the first occurrence of the separator at or after a position, or none |
| Text.Split | src/app/login/page.tsx:66 | split always gives at least one piece |
| Text.SplitPiecesHaveNoSep | src/app/login/page.tsx:66 | no piece contains the separator |
| Text.JoinSplit | src/app/login/page.tsx:66 | joining the pieces of a split gives the text back |
| Text.SplitJoinCommaSpace | src/app/login/page.tsx:55-66 | splitting a ", "-join gives the list back when it is non-empty and no element contains ", " |
| Text.SplitJoinEmpty | src/app/login/page.tsx:55-66 | the empty list comes back as one empty string |
| Text.SplitJoinNeedsNoSeparatorInside | src/app/login/page.tsx:55-66 | a message containing ", " comes back as two lines |
| ErrorMessages.EntryMessage | src/app/login/page.tsx:45-49 | a string entry is kept, an object or array gives its first value, other entries give 'Unknown error', and null throws |
| ErrorMessages.MapEntries | src/app/login/page.tsx:45-49 | the list succeeds iff every entry does, and then holds each entry's message in order |
| ErrorMessages.Displayed | src/app/login/page.tsx:65-69 | an `Error` gives lines that join back to its message; anything else gives ['An unexpected error occurred'] |
| ErrorMessages.JoinItemsOfTexts | src/app/login/page.tsx:55 | for string messages, the join of JavaScript values is the join of the strings |
| ErrorMessages.Messages | src/app/login/page.tsx:43-54 | the list of messages for a rejected payload; stated by `ErrorMessages.ErrorsArrayTakesPrecedence` and `MessageOrDefault` |
| ErrorMessages.ServerError | src/app/login/page.tsx:43-55 | the thrown `Error` whose message is the ", "-joined list; stated through `ErrorMessages.ShownErrorsRoundTrip`, `ShownMessage`, `EmptyErrorsShowOneEmptyLine` and `ShownDefault` |
| ErrorMessages.ErrorsArrayTakesPrecedence | src/app/login/page.tsx:44-49 | for any payload that is not null or undefined, with an `errors` array the messages come from it alone |
| ErrorMessages.MessageOrDefault | src/app/login/page.tsx:50-54 | for any payload that is not null or undefined and has no `errors` array, a truthy `message` is the one message, else the fixed text |
| ErrorMessages.ShownErrorsRoundTrip | src/app/login/page.tsx:44-66 | the shown lines equal the server's string errors when there is at least one and none contains ", " |
| ErrorMessages.ShownMessage | src/app/login/page.tsx:50-66 | for a payload without an `errors` array, a non-empty string `message` without ", " is shown as one line |
| ErrorMessages.EmptyErrorsShowOneEmptyLine | src/app/login/page.tsx:44-66 | an empty `errors` array shows one empty line |
| ErrorMessages.ShownDefault | src/app/login/page.tsx:52-66 | any payload that is not null or undefined with neither errors nor a truthy message shows 'An unexpected error occurred' |
| Login.TryLogin | src/app/login/page.tsx:40-59 | a thrown request, an unparsable body, a non-ok status and a null body each end in the matching throw; an ok answer gives `data.user` |
| Login.RejectedLoginShowsServerErrors | src/app/login/page.tsx:42-66 | a rejected login shows exactly the server's string errors (none containing ", ") |
| Login.FailedRefreshShowsAuthenticationFailed | src/app/login/page.tsx:29-66 | a 401 whose refresh fails shows ['Authentication failed'] |
| Login.LoginPage.constructor | src/app/login/page.tsx:9-12 | empty fields, not loading, no errors |
| Login.LoginPage.SetEmail | src/app/login/page.tsx:99 | sets the e-mail field |
| Login.LoginPage.SetPassword | src/app/login/page.tsx:123 | sets the password field |
| Login.LoginPage.BeginSubmit | src/app/login/page.tsx:25-38 | loading on, errors cleared, and the request options built from the e-mail and password as they are at that moment |
| Login.LoginPage.FinishSubmit | src/app/login/page.tsx:28-74 | the request sends the options `BeginSubmit` captured, whatever the inputs hold by then; on a throw: the error lines, a replace to '/login', loading off; on success: login, the session re-check, then a push to '/' and loading off once it settles |
| Register.TryRegister | src/app/register/page.tsx:30-46 | no throw iff the status is ok and the body parses; otherwise the fetch's throw, the parse error or the server error |
| Register.RejectedRegistrationShowsMessage | src/app/register/page.tsx:40-53 | a rejected registration shows the server's single message |
| Register.NonErrorShowsUnexpected | src/app/register/page.tsx:54-55 | a non-Error throw shows the fixed text |
| Register.RegisterPage.constructor | src/app/register/page.tsx:6-10 | empty fields, not loading, no errors |
| Register.RegisterPage.SetName | src/app/register/page.tsx:84 | sets the name field |
| Register.RegisterPage.SetEmail | src/app/register/page.tsx:101 | sets the e-mail field |
| Register.RegisterPage.SetPassword | src/app/register/page.tsx:118 | sets the password field |
| Register.RegisterPage.BeginSubmit | src/app/register/page.tsx:14-15 | loading on, errors cleared |
| Register.RegisterPage.FinishSubmit | src/app/register/page.tsx:17-59 | loading off after every outcome; the error lines on failure; errors untouched on success |
| MyPage.UpdateData | src/app/mypage/page.tsx:48-50 | `name` is sent iff it differs from `user?.USER_NAME`, `email` iff it differs from `user?.USER_ID`, with their values, and nothing else |
| MyPage.NoUserSendsBothFields | src/app/mypage/page.tsx:49-50 | with no user both fields are sent |
| MyPage.SyncedFieldsUnchangedIff | src/app/mypage/page.tsx:14-50 | right after syncing from a user, nothing is sent iff each of the two fields is truthy or '' |
| MyPage.ServerMessageOr | src/app/mypage/page.tsx:38 | the server's truthy message or the fallback; throws iff the body is null or undefined |
| MyPage.PasswordChangeOutcome | src/app/mypage/page.tsx:21-43 | success iff ok status and parsed body, with the success text; thrown requests and bad bodies give 'An error occurred' |
| MyPage.InfoUpdateOutcome | src/app/mypage/page.tsx:57-74 | success (and a session re-check) iff ok status and parsed body; thrown requests and bad bodies give 'An error occurred' |
| MyPage.FailedPasswordChangeMessage | src/app/mypage/page.tsx:32-41 | a failed password change clears nothing and shows the body's truthy message, else 'Failed to change password' for any other non-null body, and 'An error occurred' for a null body |
| MyPage.FailedUpdateMessage | src/app/mypage/page.tsx:65-73 | a failed update re-checks nothing and shows the body's truthy message, else 'Failed to update user information' for any other non-null body, and 'An error occurred' for a null body |
| MyPage.MyPageForm.constructor | src/app/mypage/page.tsx:8-12 | all fields empty |
| MyPage.MyPageForm.SyncFromUser | src/app/mypage/page.tsx:14-19 | a truthy user fills both fields (defaulting to ''); otherwise they are kept |
| MyPage.MyPageForm.SetName | src/app/mypage/page.tsx:122 | sets the name field |
| MyPage.MyPageForm.SetEmail | src/app/mypage/page.tsx:132 | sets the e-mail field |
| MyPage.MyPageForm.SetCurrentPassword | src/app/mypage/page.tsx:91 | sets the current password |
| MyPage.MyPageForm.SetNewPassword | src/app/mypage/page.tsx:102 | sets the new password |
| MyPage.MyPageForm.HandlePasswordChange | src/app/mypage/page.tsx:21-43 | shows the outcome's message and clears both passwords exactly on success |
| MyPage.MyPageForm.HandleInfoUpdate | src/app/mypage/page.tsx:45-75 | no changes: 'No changes to update' and no request; otherwise the changed fields are sent and the outcome shown |
| Middleware.Decide | src/app/middleware.ts:6-14 | a redirect iff no `access_token` cookie and the path is '/mypage', to '/login' on the same origin |
| Middleware.Serve | src/app/middleware.ts:16-18 | paths other than '/mypage' pass through without running the middleware |
| Middleware.TokenPassesThrough | src/app/middleware.ts:9-13 | a request with the cookie always passes through |
| Middleware.MatcherIsRedundant | src/app/middleware.ts:6-18 | with or without the matcher the decision is the same |
| Middleware.RedirectTarget | src/app/middleware.ts:9-10 | the redirect goes to '/login' on the request's origin |
| Auth.Settle | src/app/components/authcontext.tsx:51-71 | a pass that does not retry authenticates iff the answer is ok with a parsed non-null body, with `data.user`; otherwise it clears both fields |
| Auth.CheckStatus | src/app/components/authcontext.tsx:42-73 | `checkAuthStatus` over a list of server answers; stated by `Auth.SettlesAtFirstNonRetry`, `PendingWhileRetrying` and `SettledLoggedOutHasNullUser` |
| Auth.SettlesAtFirstNonRetry | src/app/components/authcontext.tsx:55-63 | the check settles at the first round that is not a 401 with a successful refresh, after any number of retries |
| Auth.PendingWhileRetrying | src/app/components/authcontext.tsx:55-59 | while every round retries the check does not settle |
| Auth.SettledLoggedOutHasNullUser | src/app/components/authcontext.tsx:42-73 | a settled check that is not authenticated leaves a null user |
| Auth.AuthContext.constructor | src/app/components/authcontext.tsx:17-18 | not authenticated, null user |
| Auth.AuthContext.Login | src/app/components/authcontext.tsx:79-82 | authenticated with the given user |
| Auth.AuthContext.Logout | src/app/components/authcontext.tsx:84-102 | always unauthenticated with a null user, whatever the server answers |
| Auth.AuthContext.RefreshToken | src/app/components/authcontext.tsx:20-40 | true iff ok, leaving the state; false otherwise, clearing both fields |
| Auth.AuthContext.CheckAuthStatus | src/app/components/authcontext.tsx:42-73 | settles iff `CheckStatus` does, leaving its state; while pending the state is unchanged |
| Api.WithCredentials | src/app/utils/api.ts:5-8 | every option is kept and `credentials` is 'include', overriding any given value |
| Api.ApiCall | src/app/utils/api.ts:3-27 | the first event is always the request to `url` with credentials |
| Api.EveryRequestIncludesCredentials | src/app/utils/api.ts:5-17 | each request sent goes to `url` with credentials and the caller's other options |
| Api.FirstAnswerReturned | src/app/utils/api.ts:10-23 | a first answer other than 401 is returned after one request and no refresh |
| Api.RetriedOnceAfterRefresh | src/app/utils/api.ts:10-17 | after a 401 and a successful refresh, exactly one retry is made and its answer is returned, whatever its status |
| Api.FailsWhenRefreshFails | src/app/utils/api.ts:18-19 | after a 401 and a failed refresh the call throws 'Authentication failed' after one request |
| Api.AtMostTwoRequestsOneRefresh | src/app/utils/api.ts:4-26 | at most two requests and one refresh per call, with the refresh made iff the first answer is a 401 |

## Left out

- The Naver map widget: markers, info windows, `LatLng` and `MarkerClustering` are external objects. A marker is modelled by the apartment and the record its info window quotes.
- The chart drawn with `ReactDOM.render` inside `setTimeout`: this is UI and a timer.
- `fetch`, `Promise.all` and `response.json()` are I/O. Their results are inputs (`Http.FetchOutcome`, `MapView.Fetched`).
- Logging with `console`, and the URL clean-up effect on the login page: neither has observable state in the model.
- The effect clean-up that removes the markers captured from an earlier render. It depends on the widget and on React closure timing.
- `MapView.NaverMapEx.Refresh`: overlapping effect runs are not interleaved in the model. Each call is one complete run with the filter its render captured. Which run settles last, and so leaves its markers, is up to the caller's order of calls.
- `MapView.NaverMapEx.Refresh`: payloads of the wrong shape are not modelled. A non-array `apartments`, or a history entry that is neither an array nor null, throws inside `.then` after `setPriceData` has already run. A null history entry behaves like a missing key, because `?.` short-circuits, and is not modelled separately. `MapView.Fetched` holds only well-shaped payloads.
- `Middleware.Serve`: the model reads the matcher as written. Next.js looks for middleware only at the project root or in `src/`, so a file at src/app/middleware.ts may never be loaded.
- Numbers are integers. `Infinity` is modelled as an unbounded maximum (`None`). `NaN`, floating point, `Number('')` coercion, string dates (the comparator's `NaN`) and null prices are not modelled.
- `MarkerSelection.Excluded`: the deal-type checks use `== 0` for `!price`. This matches the source for numbers only; a null or missing price is not modelled.
- The area options are labelled as ranges ('60m² 이하' and so on), but the code compares `Area` for strict equality with the option value. The model follows the code.
- `PriceHistory.SortByDateDesc`: the sort is stated to be a newest-first permutation that leaves sorted input alone, with the first newest record at the head. Full stability for records after the head is not stated.
- JavaScript objects are compared structurally where the source uses `!==` on strings or undefined. Object identity is not modelled.
- Object property order for integer-like keys in `Object.values` is not modelled, nor are duplicate keys: the model keeps insertion order with one entry per key.
- The TypeError texts are V8's. Other engines word them differently.
- `JSON.stringify` request bodies are kept as the objects before stringification.
- `Auth.AuthContext.CheckAuthStatus`: the unbounded retry is modelled over a finite list of server answers. When the list runs out, the call is reported as not settled.
- `Login.LoginPage.FinishSubmit`: while the session re-check is still pending, the submit has not ended. `loading` stays on and no navigation happens.
- `MyPage.MyPageForm.HandleInfoUpdate`: the session re-check it starts is not awaited. The model reports only that it was started.
- `Api.ApiCall`: the refresh callback is reduced to the boolean it resolves to. The login page, the only caller of the wrapper, passes `Auth.AuthContext.RefreshToken`, which also clears the session when the refresh fails.
- The root layout, navigation bar, logo, logout button, home page, map page and the plain map component have no logic beyond rendering and routing, so they are not part of this model.
