# Legal-consultation web client: authenticated HTTP client, auth store, response normalisers, route guard

A Dafny model of the client-side logic of a single-page web application for
legal consultation. It covers five pieces.

- **The shared HTTP client** (`src/api/index.ts`). It has three interceptors:
  - the request interceptor adds `Authorization: Bearer <token>`;
  - the success interceptor strips one `data` envelope off every body;
  - the error interceptor handles a 401 by refreshing the access token once ("single flight"). Requests that fail while that refresh is in flight are queued and replayed after it.
- **The auth store** (`src/stores/auth.ts`). It keeps in-memory copies of the login state beside their `localStorage` entries. Once per browser session it forgets a login the user did not ask to be remembered.
- **The review-record calls** (`src/api/check.ts`). They turn whatever the server sent into one uniform record, decided by the response's shape.
- **The unary chat calls** (`src/api/chat.ts`). They dig the reply text out of several response shapes, with empty fall-backs.
- **The route table and its navigation guard** (`src/router/index.ts`).

Files:

- `js.dfy` (module `Js`): the JavaScript values that the code inspects, and the JavaScript operations it applies to them:
  - truthiness, `typeof … === 'object'` and the `in` operator;
  - property reads, `String(v)` and `Array.prototype.join`.
- `web_storage.dfy` (`WebStorage`): a browser key/value store as an object. The API client and the auth store share one `localStorage`. A token the client removes is therefore gone for the store as well, while the store's in-memory copy stays as it was.
- `api_client.dfy` (`Api`): the interceptors.
  - The async error handler is split at its one `await` (the refresh call) into two atomic steps, `HandleError` and `CompleteRefresh`. This is sound because on a single-threaded event loop nothing interleaves inside either step.
  - The class `ApiClient` holds the module's `isRefreshing` flag and `pendingQueue`, and the location. It also holds the request kept by the handler that is suspended at the refresh call. Its methods are proved equal to the two step functions.
  - Lemmas about runs of errors state the single-flight property.
- `auth_store.dfy` (`Auth`): the store as a class over the two storages. `Synced()` says that every in-memory field equals what a fresh read of storage would give. The constructor and every setter keep it.
- `review_records.dfy` (`Review`), `chat.dfy` (`Chat`) and `router.dfy` (`Router`): pure functions, one per source function.

Three behaviours of the code worth knowing:

- **A failed refresh keeps the queue.** `pendingQueue` is emptied only on the success path (index.ts:111-112). After a failed refresh the queued requests stay queued and are never sent, since every later 401 is rejected (`Api.FailedRefreshStrandsQueue`). In the browser the redirect to `/login-before` (index.ts:120) then unloads the page, which discards the queue. The model stops before that unload.
- **The request that started the refresh is sent last.** It is resent after every queued request has been replayed (index.ts:111-115).
- **The refresh call is a POST.** The refresh token goes as a query parameter (index.ts:90). The GET wrapper in `src/api/auth.ts` is not part of this model.

## Model

| member | source | states |
|---|---|---|
| `Api.AttachBearer` | src/api/index.ts:24-31 | `Authorization` is `"Bearer " + token` exactly when a non-empty token is stored. Otherwise the request is unchanged. No other header, the id or the retry mark ever change. |
| `Api.AttachBearerIdempotent` | src/api/index.ts:24-31 | Running the request interceptor again on a resent request gives the same request. |
| `Api.Unwrap` | src/api/index.ts:39-46 | Only a plain object with a `data` key is unwrapped, to that value. Arrays, primitives and objects without `data` pass unchanged. |
| `Api.UnwrapEnvelope` | src/api/index.ts:42-45 | Unwrapping removes exactly one envelope: `{data: x}` gives `x`, and `{data: {data: x}}` gives `{data: x}`. |
| `Api.HandleError` | src/api/index.ts:47-95 | A non-401 is rejected and nothing changes. A refresh call is issued iff the request was not retried, a refresh token is stored and no refresh is in flight. The flag is set and the request is marked `_retry`. While a refresh is in flight the request is appended to the queue, and nothing else changes. A second 401 removes both tokens and redirects to `/login-before`. A missing refresh token removes only `token` and redirects; this check runs before the in-flight check. The invariant `ClientInv` is preserved. |
| `Api.IssuedTokens` | src/api/index.ts:97-99 | The tokens are read iff the refresh succeeded with a body. A missing body throws, which counts as a failed refresh. |
| `Api.IssuedTokensEitherShape` | src/api/index.ts:98-99 | `data.data \|\| data` finds the tokens both inside the `data` envelope and at the top level. `refreshToken` may be absent. |
| `Api.Replays` | src/api/index.ts:74-76 | Each queued request is replayed in its queue position, with the new bearer header. Its id, its retry mark and every other header are kept. |
| `Api.CompleteRefresh` | src/api/index.ts:97-124 | The flag is cleared on both exits. Failure removes both tokens, redirects and leaves the queue as it was. Success stores the new access token. It overwrites `refreshToken` only when a truthy one was returned, leaves every other key alone, and replays the queue in order then empties it. The handler's own request is resent last. |
| `Api.QueuedWhileRefreshing` | src/api/index.ts:71-79 | While a refresh is in flight, every fresh 401 is queued in arrival order, and no refresh call is issued. |
| `Api.SingleFlight` | src/api/index.ts:71-95 | Of N fresh 401s handled while no refresh is in flight, exactly one issues a refresh call: the first. The other N-1 are queued in arrival order. |
| `Api.ConcurrentUnauthorizedAllResent` | src/api/index.ts:71-115 | When that one refresh succeeds, each of the N requests is sent again exactly once. The earlier queue comes first, then the N-1 in arrival order, and last the request that started the refresh. |
| `Api.ResentWithNewToken` | src/api/index.ts:107-115 | Every resent request leaves through the request interceptor with the new token, even an empty one. Replays are not marked `_retry`; the handler's own request is. |
| `Api.FailedRefreshStrandsQueue` | src/api/index.ts:116-124 | After a failed refresh the queue is kept and no refresh token is stored. Every later 401 is then rejected, and the queue stays as it is. |
| `Api.MissingAccessTokenStoredAsUndefined` | src/api/index.ts:99-108 | A refresh body without `accessToken` stores the truthy string `"undefined"`. Resent requests then carry `Bearer undefined`. |
| `Api.ApiClient.constructor` | src/api/index.ts:19-21 | The flag starts false and the queue starts empty. |
| `Api.ApiClient.Intercept` | src/api/index.ts:24-31 | Reading the token from the shared storage gives `AttachBearer` of the current entries. |
| `Api.ApiClient.OnError` | src/api/index.ts:47-95 | It updates storage, the flag, the queue and the location exactly as `HandleError` does. |
| `Api.ApiClient.FinishRefresh` | src/api/index.ts:97-124 | Its `forEach` drain loop and the `finally` reset give exactly `CompleteRefresh`. |
| `Auth.StartupCleanup` | src/stores/auth.ts:11-21 | A session that already has the marker clears nothing. A new session without remember-me and with a stored token removes exactly `token`, `refreshToken`, `userInfo` and `userType`. Otherwise nothing is removed. Only login keys can go, and every surviving value is unchanged. |
| `Auth.MarkSession` | src/stores/auth.ts:14-24 | Afterwards the session is marked. A new marker has the value `'true'`, and no other session key changes. |
| `Auth.RestoredUserInfo` | src/stores/auth.ts:30-40 | A user record is restored only from a present string that is neither `'undefined'` nor `'null'`, and then it is what the parse gave. |
| `Auth.DropUnparsable` | src/stores/auth.ts:33-38 | Only the `userInfo` entry can change: it is kept as it was, or removed. It is removed exactly when it was worth parsing and failed to parse. |
| `Auth.NewSessionForgetsUnrememberedLogin` | src/stores/auth.ts:7-27 | A new browser session without remember-me comes up with no token stored. |
| `Auth.RememberedLoginSurvives` | src/stores/auth.ts:7-27 | With remember-me, `token`, `refreshToken` and `userType` survive initialisation. |
| `Auth.StartSession` | src/stores/auth.ts:7-24 | `rememberMe` is read first. The storages then change exactly as `StartupCleanup` and `MarkSession` say. |
| `Auth.RestoreUserInfo` | src/stores/auth.ts:30-39 | It returns `RestoredUserInfo` and leaves storage as `DropUnparsable` says. |
| `Auth.AuthStore.constructor` | src/stores/auth.ts:7-44 | Storage ends as `InitialLocal`, with the session marked. Every field mirrors storage: `token`/`refreshToken` default to `''` and `userType` to `'1'`. |
| `Auth.AuthStore.SetToken` | src/stores/auth.ts:46-49 | The field and the `token` entry get the same value, and sync is kept. |
| `Auth.AuthStore.SetRefreshToken` | src/stores/auth.ts:51-54 | The field and the `refreshToken` entry get the same value, and sync is kept. |
| `Auth.AuthStore.SetUserInfo` | src/stores/auth.ts:56-64 | A record is written serialised. A null record removes the key instead of writing it. Sync is kept when the record survives its own serialisation. |
| `Auth.AuthStore.SetUserType` | src/stores/auth.ts:66-69 | The field and the entry get the same value. Sync is kept for a non-empty type, since an empty one reads back as `'1'`. |
| `Auth.AuthStore.SetRememberMe` | src/stores/auth.ts:71-74 | It stores `'true'`/`'false'`, and sync is kept. |
| `Auth.AuthStore.Logout` | src/stores/auth.ts:76-87 | Both tokens are emptied, `userInfo` becomes null, `userType` becomes `'1'` and `rememberMe` becomes false. Exactly the five keys are removed, and every other key and the session storage are unchanged. Afterwards the user is not logged in and the store is in sync. |
| `Auth.LoggedInIffTokenStored` | src/stores/auth.ts:44 | While the store is in sync, `isLoggedIn` holds iff a non-empty token is stored. |
| `Review.ErrorCode` | src/api/check.ts:145 | The code is the HTTP status when there is a non-zero one, else 500. It is never 0. |
| `Review.ErrorMessage` | src/api/check.ts:146 | The message is the server's message if truthy, else the error's own message, else the fixed default. It is always truthy. |
| `Review.SaveReviewRecord` | src/api/check.ts:109-152 | An object with `success` passes through. Any other success is code 200, `'保存成功'`, with the response's string form, or `''` for a nullish response. A failure gives the error record. `success` is true iff the request succeeded. |
| `Review.GetReviewRecordDetail` | src/api/check.ts:159-217 | An empty id gives 400 `'记录ID不能为空'` whatever the server would say. The response passes iff it has both `success` and `data`. It is wrapped as 200 only if it has `recordId` or `fileName`. Otherwise the result is 500 `'数据格式异常'`. |
| `Review.GetReviewRecordList` | src/api/check.ts:223-269 | An object with both `success` and `data` passes through. Otherwise an array becomes `records`. An object with `records` uses it if truthy, else `[]`. Any other shape is a success with an empty list. Every record built for a successful request is 200 `'获取成功'` with success true. A failure gives the error record with an empty list. A built record always has a truthy `records`. |
| `Review.DeleteReviewRecord` | src/api/check.ts:276-332 | An empty id gives 400. An object with `success` passes through. Every other successful response is 200, success true, data null. |
| `Review.GetConversationId` | src/api/check.ts:37-43 | A falsy response becomes `''`. A truthy one is returned unchanged. |
| `Review.ErrorPathsAgree` | src/api/check.ts:142-151 | All four catch blocks give the status or 500, the server's message or the error's own, and `success` false. |
| `Review.ArrayResponses` | src/api/check.ts:118-141 | An array response is saved as its comma-joined form and is a format error for detail. It is the record list, and counts as deleted. |
| `Review.UnwrapStandardBody` | src/api/index.ts:42-45 | The server's `{code, message, data, success}` body is unwrapped to its payload. |
| `Review.DetailBehindInterceptor` | src/api/check.ts:178-193 | A detail record in the server's standard envelope reaches the function without its envelope. It is rebuilt as a 200 record, not passed through. |
| `Chat.ChatConsult` | src/api/chat.ts:15-48 | The reply is `ReplyOf` the response, and the conversation id is always the request's. |
| `Chat.ReplyOf` | src/api/chat.ts:25-41 | A string is the reply as it is. An object with key `'0'` gives its values concatenated in key order. Otherwise a truthy `data` is the reply, concatenated when it is an object. Anything else gives `''`. |
| `Chat.SpreadReplyRoundTrip` | src/api/chat.ts:32-33 | A reply string the backend sends spread into an object (`{'0': c0, '1': c1, …}`) is recovered exactly. |
| `Chat.ConsultBehindInterceptor` | src/api/chat.ts:19-33 | A spread or plain string reply inside the server envelope comes out as that string. |
| `Chat.ListOrEmpty` | src/api/chat.ts:63 | A falsy response becomes `[]`, and the result is always truthy. |
| `Chat.IdOrEmpty` | src/api/chat.ts:118 | A falsy response becomes `''`. |
| `Router.BeforeEach` | src/router/index.ts:29-37 | It redirects to `/login` iff the target requires auth and the user is not logged in. Otherwise navigation proceeds. |
| `Router.OnlyHomeRequiresAuth` | src/router/index.ts:4-21 | Only `/` requires auth. |
| `Router.RedirectIsFinal` | src/router/index.ts:32-33 | The redirect target is never redirected again. |
| `Router.GuardIgnoresOrigin` | src/router/index.ts:29-37 | The outcome does not depend on `from`. |
| `Router.LoginBeforeIsUnguarded` | src/router/index.ts:4-21 | `/login-before`, where the API client sends a dead session, matches no route, so the guard lets it load. |

## Left out

- Axios itself is not modelled. That covers the transport, `baseURL`/`timeout` (index.ts:8-17) and the pass-through request-error handler (index.ts:32-34). The refresh call's outcome is an input (`RefreshResult`), and so is every awaited response in the other files.
- Promises are not modelled. A queued or retried request is represented by the request that is dispatched again (`Resent`), and its response is not followed further.
- Request configs are values. The handler's in-place mutation of `originalRequest` is modelled by copying; two handlers sharing one config object (aliasing) is not captured. Headers are assumed present, as axios always supplies them.
- Browser navigation is not performed. `window.location.href` is a field of the client.
- `Date.now()` is an input parameter (`now`).
- `JSON.parse` and `JSON.stringify` of the user record are the store's `parse` and `stringify` functions. A parse that succeeds is assumed to yield a `UserInfo`. `console.error` is omitted.
- Request URLs and `encodeURIComponent` (check.ts:174, 291) are not modelled, since no result depends on them. The `typeof recordId !== 'string'` test is moot for a `string` parameter.
- `submitFileReview`, `parseFileContent` and `deleteChatHistory` are not modelled. They return or await the response with no logic of their own; `FormData` is foreign.
- The streaming chat (Server-Sent Events) consumer is not part of this model; its source file is not available.
- JavaScript numbers are integers here. `String(n)` is modelled for integers only.
- An object's keys are assumed distinct and listed in property-enumeration order. Reading a property of a string or number gives `undefined`. That is right for the names the code reads there (`data`, `accessToken`, `refreshToken`, `message`); the code never reads an index or `length` of one.
- Vue-router's path normalisation (case-insensitive matching, optional trailing slash) and its lazy component loading are not modelled. Paths match exactly.
- The Pinia/Vue reactivity wiring (`defineStore`, `ref`, `computed`) is not modelled. The store is a class whose fields are the refs.
