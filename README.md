# Session, cross-tab sync and optimistic posts of the Redux client

This project models the state logic of a React Native / Redux Toolkit client
that signs an admin in, lists users and their posts, and creates posts:

- JavaScript values (`Js`): nullable fields, the scalar values object
  literals carry, and the text a template literal splices in for them;
- the `auth` slice (`AuthSlice`): the session `{user, token}`, which
  starts empty, is overwritten from the payload by `setUser` and emptied by
  `logout`, and the two selectors that read it;
- cross-tab synchronisation (`AuthSync`): `broadcastLogin` / `broadcastLogout`
  post `{type, payload}` envelopes on the `auth-sync` channel, and each tab's
  message handler applies a `LOGOUT` (clear, go to `/(auth)/login`) or a
  `LOGIN` (install the payload, go to `/(tabs)`) and ignores anything else;
- the user/post endpoints (`UsersApi`): the request each `query` builder
  produces, the cache options of the post list, and the optimistic update of
  `createPost`, which pushes `{...arg, id: tempId}` onto the cached post list
  of `arg.userId` and undoes that push if the request fails;
- `prepareHeaders` of the authenticated API (`BaseApi`): a bearer
  `Authorization` header when the store holds a truthy token, and always
  `Content-Type: application/json`.

State the source changes in place is modelled as classes: the slice's draft
(`AuthSlice.Session`), the broadcast channel as the sequence of posted
messages (`AuthSync.Channel`), the router as the log of `replace` targets
(`AuthSync.Router`), the `getUserPosts` cache as a map from user id to post
list (`UsersApi.PostsCache`) and a `Headers` object as a map from lower-cased
name to value (`BaseApi.Headers`). Each method's postcondition ties the new
state to a pure function of the old one (`Reduce`, `Handle`, `PushTemp`,
`UndoPatch`), and the lemmas state the properties of those functions,
including over arbitrary sequences of messages (`Run`).

Inputs that come from outside the shown code are parameters: the message a
tab receives, the temporary id `Date.now()` returns, whether the `createPost`
request was fulfilled, and the store state `getState()` returns.

Four behaviours of the code that a reader might not expect:

- The session is only "paired" (user and token both present or both absent)
  when the payload is: `setUser` copies whatever `user` and `token` the payload
  holds. `AuthSlice.PairingAfterActions` states both directions.
- A `LOGIN` envelope without a payload makes `setUser`'s destructuring raise a
  `TypeError` before `router.replace` runs; the model reports `raised` and
  changes nothing.
- The optimistic update appends the temporary post at the end of the list.
  Its undo is the inverse Immer patch of that one push, which is positional
  (it removes the element at the old length); it is not keyed by the
  temporary id. The model's undo puts back the list recorded before the push,
  which agrees with the inverse patch only when nothing changes that list
  between the push and the undo; `OnQueryStarted` models no such change.
- When no list with data is cached for `arg.userId`, the update and its undo
  change nothing.

## Model

| member | source | states |
|---|---|---|
| `Js.DecimalDigits` | redux/api/userApi/usersApi.ts:12 | the decimal rendering of a natural number is non-empty, all digits, and starts with `0` only for zero |
| `Js.DigitsRoundTrip` | redux/api/userApi/usersApi.ts:12 | reading the decimal digits of `n` back gives `n` |
| `Js.IntegerRoundTrip` | redux/api/userApi/usersApi.ts:12 | the string a template literal makes of any integer parses back to that integer |
| `Js.IntegerString` | redux/api/userApi/usersApi.ts:12 | computes the text a template literal splices in for an integer: a minus sign for negatives, then `DecimalDigits`; `IntegerRoundTrip` states that it reads back |
| `Js.ToJsString` | redux/api/userApi/usersApi.ts:12 | computes `${v}` for each scalar: `undefined`, `null`, `true`/`false`, `IntegerString` of a number, a string itself |
| `AuthSlice.Session.constructor` | redux/feature/authSlice.ts:34-37 | a new session holds the initial state: no user, no token |
| `AuthSlice.InitialState` | redux/feature/authSlice.ts:34-37 | computes the declared initial state, `{user: null, token: null}` |
| `AuthSlice.Reduce` | redux/feature/authSlice.ts:43-51 | computes the slice reducer: `setUser(p)` writes `p.user` and `p.token`, `logout` writes null to both; its properties are the `AuthSlice` lemmas below |
| `AuthSlice.UseCurrentToken` | redux/feature/authSlice.ts:58 | computes `state.auth.token`; `SelectorsObserveReducer` states what it reads after each action |
| `AuthSlice.UseCurrentUser` | redux/feature/authSlice.ts:59 | computes `state.auth.user`; `SelectorsObserveReducer` states what it reads after each action |
| `AuthSlice.Session.SetUser` | redux/feature/authSlice.ts:43-47 | the fields become the payload's user and token, as the reducer says |
| `AuthSlice.Session.Logout` | redux/feature/authSlice.ts:48-51 | both fields become null |
| `AuthSlice.Session.Dispatch` | redux/feature/authSlice.ts:39-55 | dispatching an action leaves the state the reducer computes from the old one |
| `AuthSlice.InitialStateEmpty` | redux/feature/authSlice.ts:34-37 | records the declared initial state, not proved behaviour: `user = null` and `token = null` |
| `AuthSlice.SetUserOverwrites` | redux/feature/authSlice.ts:43-47 | after `setUser(p)` the state holds `p.user` and `p.token`, from any previous state |
| `AuthSlice.SetUserForgetsPrior` | redux/feature/authSlice.ts:44-46 | two states given the same payload become equal |
| `AuthSlice.LogoutClears` | redux/feature/authSlice.ts:48-51 | `logout` yields the initial state from any state, and twice equals once |
| `AuthSlice.SetUserThenLogout` | redux/feature/authSlice.ts:34-51 | `setUser(p)` then `logout` yields exactly the initial state |
| `AuthSlice.PairingAfterActions` | redux/feature/authSlice.ts:43-51 | after `setUser(p)`, user is null iff token is null exactly when that holds of `p`; after `logout` it always holds |
| `AuthSlice.SelectorsObserveReducer` | redux/feature/authSlice.ts:58-59 | the token and user selectors return what `setUser` stored, and null after `logout` |
| `AuthSync.Channel.constructor` | redux/feature/authSync.ts:5 | a channel is opened under its name with nothing posted |
| `AuthSync.Channel.PostMessage` | redux/feature/authSync.ts:24 | posting appends the message to the channel |
| `AuthSync.Router.constructor` | redux/feature/authSync.ts:3 | the route log starts empty |
| `AuthSync.Router.Replace` | redux/feature/authSync.ts:13 | `router.replace(href)` appends `href` to the route log |
| `AuthSync.LoginMessage` | redux/feature/authSync.ts:24 | computes the envelope `{type: "LOGIN", payload: userData}` that `broadcastLogin` posts |
| `AuthSync.LogoutMessage` | redux/feature/authSync.ts:28 | computes the envelope `{type: "LOGOUT"}`, without payload, that `broadcastLogout` posts |
| `AuthSync.BroadcastLogin` | redux/feature/authSync.ts:5-25 | on the `auth-sync` channel, appends exactly `{type: "LOGIN", payload: userData}` to the channel |
| `AuthSync.BroadcastLogout` | redux/feature/authSync.ts:27-29 | on the `auth-sync` channel, appends exactly `{type: "LOGOUT"}`, with no payload, to the channel |
| `AuthSync.OnMessage` | redux/feature/authSync.ts:7-21 | the tab's session and route log become what `Handle` gives; it raises exactly for a `LOGIN` without payload |
| `AuthSync.Handle` | redux/feature/authSync.ts:8-20 | computes the handler's effect on a tab: `LOGOUT` runs `logout` and logs `/(auth)/login`, `LOGIN` with a payload runs `setUser` and logs `/(tabs)`, anything else (a `LOGIN` without payload included) changes nothing; the `AuthSync` lemmas below state its properties |
| `AuthSync.HandleLogout` | redux/feature/authSync.ts:11-14 | a `LOGOUT` empties the session and appends `/(auth)/login` to the route log |
| `AuthSync.HandleLogin` | redux/feature/authSync.ts:16-19 | a `LOGIN` with payload `p` sets the session to `p.user` / `p.token` and appends `/(tabs)` |
| `AuthSync.HandleOther` | redux/feature/authSync.ts:8-20 | any other message changes neither the session nor the route log |
| `AuthSync.LoginRoundTrip` | redux/feature/authSync.ts:16-25 | handling the envelope `broadcastLogin(d)` posts gives the session a local `setUser(d)` gives |
| `AuthSync.LogoutConverges` | redux/feature/authSync.ts:11-14 | handling the envelope `broadcastLogout()` posts logs out any tab, whatever its state |
| `AuthSync.ReapplyIdempotent` | redux/feature/authSync.ts:11-19 | handling the same applied message twice leaves the session of handling it once, with the route logged twice |
| `AuthSync.LastAppliedWins` | redux/feature/authSync.ts:8-20 | after any sequence of messages the session is the one set by the last applied `LOGIN`/`LOGOUT`, or the starting one if none applied |
| `AuthSync.RunNavigation` | redux/feature/authSync.ts:8-20 | after any sequence the route log has grown by exactly the routes of the applied messages, in order |
| `AuthSync.RunKeepsPaired` | redux/feature/authSync.ts:8-20 | a paired session stays paired over any sequence whose applied logins carry paired payloads |
| `UsersApi.GetUsersQuery` | redux/api/userApi/usersApi.ts:7 | computes `getUsers`'s request: the bare URL `/users`, a GET |
| `UsersApi.GetUsersTags` | redux/api/userApi/usersApi.ts:8 | computes `getUsers`'s tags: the one tag `Users` |
| `UsersApi.GetUserPostsQuery` | redux/api/userApi/usersApi.ts:12 | computes `getUserPosts`'s request: `/posts?userId=` followed by `${userId}` |
| `UsersApi.GetUserPostsTags` | redux/api/userApi/usersApi.ts:14 | computes `getUserPosts`'s tags from result, error and user id: the one tag `{type: "Posts", id: userId}` |
| `UsersApi.CreatePostQuery` | redux/api/userApi/usersApi.ts:17-21 | computes `createPost`'s request: a POST to `/posts` whose body is the argument |
| `UsersApi.UserIdOf` | redux/api/userApi/usersApi.ts:24 | computes `arg.userId`, `undefined` when `arg` has no such field; the key of the list the optimistic update targets |
| `UsersApi.EndpointRequests` | redux/api/userApi/usersApi.ts:6-21 | records the declared configuration, not proved behaviour: `getUsers` is a GET of `/users` tagged `Users`; `createPost(arg)` is `{url: "/posts", method: "POST", body: arg}` |
| `UsersApi.UserPostsUrlCarriesId` | redux/api/userApi/usersApi.ts:12 | `getUserPosts(id)` requests `/posts?userId=` followed by a rendering of `id` that parses back to `id` |
| `UsersApi.UserPostsUrlInjective` | redux/api/userApi/usersApi.ts:12 | different integer user ids request different URLs |
| `UsersApi.UserPostsTagsNameUser` | redux/api/userApi/usersApi.ts:14 | records the declared configuration, not proved behaviour: the post list provides exactly the tag `{type: "Posts", id: userId}`, whatever the result or error |
| `UsersApi.TempPost` | redux/api/userApi/usersApi.ts:25-28 | the optimistic post has all of `arg`'s fields, with `id` set to the temporary id even when `arg` had one |
| `UsersApi.CreatePostBodyAndTempPost` | redux/api/userApi/usersApi.ts:16-28 | the optimistic post and the request body agree on every field but `id` |
| `UsersApi.PushTemp` | redux/api/userApi/usersApi.ts:23-29 | the list for `arg.userId` gains exactly one element, at the end, earlier elements unchanged; other keys untouched; no cached list, no change |
| `UsersApi.InverseOf` | redux/api/userApi/usersApi.ts:23-30 | computes the inverse the update records: the key `arg.userId` and the list cached under it before the push, or nothing when none is cached |
| `UsersApi.UndoPatch` | redux/api/userApi/usersApi.ts:35 | computes the snapshot restore that stands for `patch.undo()` of one push: the recorded list goes back under its key, and an empty patch changes nothing |
| `UsersApi.RollbackRestores` | redux/api/userApi/usersApi.ts:32-36 | undoing the update gives back exactly the lists before it |
| `UsersApi.PostsCache.UpdateQueryDataPush` | redux/api/userApi/usersApi.ts:23-30 | the cache becomes `PushTemp` of the old cache and the returned patch records the old list |
| `UsersApi.PostsCache.Undo` | redux/api/userApi/usersApi.ts:35 | `patch.undo()` puts the recorded list back under its key |
| `UsersApi.PostsCache.OnQueryStarted` | redux/api/userApi/usersApi.ts:22-37 | on success the patched lists stay, with the temporary post appended; on failure the cache is exactly what it was |
| `BaseApi.Truthy` | redux/api/baseApi.ts:12 | computes the truthiness `if (token)` tests: a token that is present and not the empty string |
| `BaseApi.LowerAscii` | redux/api/baseApi.ts:14 | computes the ASCII lower-casing `Headers` applies to a header name, character by character |
| `BaseApi.LowerAsciiIdempotent` | redux/api/baseApi.ts:14 | a lower-cased header name is its own key, so names that differ only in case share one entry |
| `BaseApi.Headers.constructor` | redux/api/baseApi.ts:9 | a new header list is empty and keeps every name lower-cased |
| `BaseApi.Headers.Set` | redux/api/baseApi.ts:14 | `headers.set(name, value)` replaces the value under `name` matched without regard to case, or adds it, keeps names lower-cased, and changes nothing else |
| `BaseApi.PrepareHeaders` | redux/api/baseApi.ts:9-22 | a truthy token from the given state yields `Authorization: Bearer <token>`; a null or empty token leaves `Authorization` as it was; `Content-Type` is always `application/json`; every other header is unchanged; names stay lower-cased, so a prior `Content-Type` in any case is overwritten; the same object is returned |

## Left out

- app/_layout.tsx: installing the handler only when `window` exists is UI start-up, not modelled.
- redux/store.ts: persistence and rehydration of the `auth` slice by redux-persist, and the choice of storage by platform, are library behaviour that is not shown.
- redux/api/authApi.ts: the login and register endpoints are declarative configuration handed to the network layer.
- redux/api/userApi/userApi.ts is not part of this model: its base URL and tag types are unknown.
- RTK Query internals: request deduplication, freshness timers, eviction after `keepUnusedDataFor`, tag invalidation and refetch policies.
- Network I/O, the BroadcastChannel transport and its delivery and ordering, navigation effects beyond recording the target route, and the clock (`Date.now()` is the `tempId` parameter).
- Several optimistic updates in flight on one list at once are not modelled.
- UsersApi.UndoPatch, UsersApi.PostsCache.Undo: restore the list recorded before the push instead of applying Immer's positional inverse patch; the two differ when the list changes between the push and the undo (a refetch, for instance, which the posts screen can trigger on focus or reconnect), and the model has no such change.
- `getUserPosts.keepUnusedDataFor` is recorded as the constant `UsersApi.GetUserPostsKeepUnusedDataFor` (300 seconds); the eviction it configures is not modelled.
- `null` and `undefined` are one value (`None`) in the session fields and the message payload; both are falsy and both equal `null` under `==`.
- Session payloads are typed: a payload whose `user` is not shaped like a profile is not modelled.
- The message data is an object with a string `type`; `event.data` being null or having a non-string `type` is not modelled.
- Js.IntegerString: numbers are integers rendered in plain decimal; NaN, fractions and the exponent notation JavaScript uses from 10^21 on are not modelled, and integers beyond 2^53 (`Number.MAX_SAFE_INTEGER`) are not modelled: JavaScript holds them as doubles and prints rounded digits (`${2**60}` is `1152921504606847000`), while `IntegerString` prints the exact integer.
- UsersApi.PostsCache: cache entries are keyed by the argument value itself, not by RTK's serialised form of it.
- BaseApi.Headers.Set: the normalisation and validation of header values by `Headers` (stripping surrounding whitespace, rejecting control characters) is not modelled.
