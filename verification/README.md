# Session, re-authentication and login logic of the storefront client

This project models the three pieces of the Expo/React Native storefront client that carry
logic of their own, separated from rendering and networking:

- **The `auth` slice** (`store/auth/authSlice.ts`): the session record (`token`,
  `refetchToken`, `userName`, each nullable) and its three reducers `setToken`, `setUser`
  and `logOut`, as an immutable `Session` datatype with a pure `Reduce` and a `Run` over
  sequences of actions. A reference reading of any action sequence (`LatestToken`,
  `LatestUser`) characterises every run, and the reachable states are exactly those whose
  `refetchToken` is null.
- **The API slice's base query** (`store/api/apiSlice.ts`): the bearer headers built by the
  two `prepareHeaders` callbacks and `baseQueryWithReauth`, which on a 401 or 501 makes one
  refresh call, then either stores the new access token and replays the request once, or
  logs out and returns the original failure. The transport is an abstract `Server` (a query
  oracle told whether it serves the first attempt or the replay, and a refresh oracle); the
  wrapper returns the final result, the new session, the trace of calls and the actions it
  dispatched.
- **The login screen's logic** (`app/auth/Login.tsx`): `validateInputs`, and the branches of
  `handleLogin` that update the session. Because the login endpoint is injected into the
  API slice, a login runs through the re-authenticating wrapper, and `HandleLogin` composes
  the two.

Modules: `Wrappers` (nullable values, JavaScript truthiness of strings), `AuthSlice`,
`ApiSlice`, `Login`.

Modelling choices:
- JavaScript `null` and `undefined` are both `None`; a string is truthy when present and
  non-empty.
- `Headers` names are case-insensitive, so the main query's `authorization` and the refresh
  query's `Authorization` are modelled as one optional `authorization` value.
- An error `status` is `Http(code)` or one of the library's string statuses (`NonHttp`);
  only `Http(401)` and `Http(501)` trigger a refresh, matching the strict `===` tests.
- The refresh reply's `data` is falsy (`FalsyData`) or an object whose `accessToken` may be
  missing; a missing `accessToken` is dispatched as `setToken(undefined)`, which stores
  `undefined` (`None` here).
- `password.length` counts UTF-16 code units (`Utf16Length`).
- A login answer whose `data` is `null` makes `result.data.token` throw; the handler's
  `catch` only alerts, so the model dispatches nothing (`NullBody`).

`handleLogin` stores only the access token and the name, and no reducer ever stores a refresh
token.

A consequence the proofs make explicit: no reducer writes `refetchToken` except to clear it,
so in every reachable state the refresh call goes out with no credential at all
(`ApiSlice.RefreshAnonymousWhenReachable`).

## Model

| member | source | states |
|---|---|---|
| AuthSlice.Reduce | store/auth/authSlice.ts:13-22 | `setToken` writes only `token`, `setUser` only `userName`, `logOut` clears both tokens and keeps the name |
| AuthSlice.NoActionWritesRefetchToken | store/auth/authSlice.ts:13-22 | no action leaves a non-null `refetchToken` other than the one already stored |
| AuthSlice.RunCharacterised | store/auth/authSlice.ts:9-24 | any sequence of dispatches leaves the token of the last `setToken` not followed by a `logOut`, the name of the last `setUser`, and the refresh credential only if no `logOut` occurred |
| AuthSlice.LogOutIdempotent | store/auth/authSlice.ts:19-22 | `logOut` applied twice equals `logOut` applied once |
| AuthSlice.LogOutClearsTokens | store/auth/authSlice.ts:19-22 | after any history, a final `logOut` leaves both tokens null and the user name unchanged |
| AuthSlice.SetTokenThenLogOut | store/auth/authSlice.ts:13-22 | `setToken(p)` followed by `logOut` leaves no access token whatever `p` is, and keeps the name |
| AuthSlice.ReachableIff | store/auth/authSlice.ts:3-23 | from the all-null initial state, a state is reachable by some sequence of actions exactly when its `refetchToken` is null |
| AuthSlice.RunKeepsReachable | store/auth/authSlice.ts:3-23 | further dispatches from a reachable state stay reachable |
| ApiSlice.MainHeaders | store/api/apiSlice.ts:9-15 | the main query has an authorization header exactly when the stored token is truthy, and then it is `Bearer <token>` |
| ApiSlice.RefreshHeaders | store/api/apiSlice.ts:21-27 | the refresh query has an authorization header exactly when `refetchToken` is truthy, and then it is `Bearer <refetchToken>` |
| ApiSlice.MainHeadersCarryToken | store/api/apiSlice.ts:9-15 | the credential a server reads back from the main query's header is the stored token when truthy, and nothing otherwise |
| ApiSlice.RefreshHeadersCarryRefreshToken | store/api/apiSlice.ts:21-27 | the refresh query presents the refresh credential and its headers do not depend on the access token |
| ApiSlice.RefreshAnonymousWhenReachable | store/api/apiSlice.ts:21-27 | in every reachable session the refresh query carries no authorization header |
| ApiSlice.BaseQueryWithReauth | store/api/apiSlice.ts:30-54 | first call uses the stored token; a refresh happens exactly on 401/501; with refresh data the token is stored and the request replayed once and its answer returned; without, `logOut` and the original failure; otherwise the first answer unchanged with no state change; at most 3 calls and 1 action |
| ApiSlice.TraceShape | store/api/apiSlice.ts:35-52 | the first call is the query, there is at most one refresh, every replay comes right after it, and every query carries the caller's arguments |
| ApiSlice.HeadersFollowSession | store/api/apiSlice.ts:35-48 | each query carries the bearer header of the session in force when sent, each refresh the caller's refresh credential |
| ApiSlice.ReplayCarriesNewToken | store/api/apiSlice.ts:45-48 | after a refresh with data, the replay presents the new access token (when truthy) |
| ApiSlice.DispatchKeepsReachable | store/api/apiSlice.ts:45-51 | the wrapper never changes the user name, only clears the refresh credential, and keeps the store reachable |
| ApiSlice.ExpiredTokenScenario | store/api/apiSlice.ts:35-53 | a 401 followed by a refresh answering `new123` replays with `Bearer new123`, returns the replay's answer and stores `new123` |
| Login.Utf16Length | app/auth/Login.tsx:39 | the JavaScript length of a string lies between its number of characters and twice that, and is zero only for the empty string |
| Login.ValidateInputs | app/auth/Login.tsx:28-47 | empty name gives "Email is required"; empty password gives "Password is required", a non-empty one shorter than 6 gives "Password must be at least 6 characters", never both; valid exactly when both messages are empty |
| Login.ValidIff | app/auth/Login.tsx:34-46 | the form is valid exactly when the name is non-empty and the password is at least 6 long |
| Login.HandleLogin | app/auth/Login.tsx:49-68 | the login is called only when validation succeeds; on success the token and then the entered name are stored; on an error answer nothing is dispatched beyond what the wrapper did |
| Login.LoginAuthorisesNextRequest | app/auth/Login.tsx:57-60 | after a successful login with a truthy token, the next request presents that token and the session holds the entered name |
| Login.LoginKeepsReachable | app/auth/Login.tsx:57-60 | logging in from a reachable state leaves a reachable state |

## Left out

- The HTTP transport (`fetchBaseQuery`, the base URL `https://fakestoreapi.com`) and RTK Query's caching and middleware: replaced by the abstract `Server` oracle.
- Headers other than authorization that the transport may add: this layer sets none.
- The endpoint tables (`store/api/serviceApiSlice.ts`, `store/auth/authApiSlice.ts`) and the store wiring (`store/store.ts`): declarative configuration with no logic of their own; only the login body `{username, password}` is kept, as `Credentials`.
- Navigation (`router.push`), `alert` (including the message built from `error.data`), `console.error` and `setErrors` rendering in `app/auth/Login.tsx`: UI side effects; the field messages are returned instead.
- Concurrent refreshes from simultaneous failing requests: asynchronous interleaving, outside this sequential model.
- Screens, headers, styles and the product catalog screens: presentation only.
- The `extraOptions` argument of `baseQueryWithReauth`: passed through untouched to the transport, so it is not modelled. The `api` argument's `getState` and `dispatch` are modelled by the session argument (read by `MainHeaders` and `RefreshHeaders`) and by the dispatched actions in the outcome.
