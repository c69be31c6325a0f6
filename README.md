# Chat client state, push bridge and navigation guard — a Dafny model

This project models the browser side of a small chat application:

- **The Vuex store** (`store.dfy`, module `Store`). It holds one state record `{user, messages}`, which starts as `{null, []}`. The mutation `setUser` replaces the user and `addMessage` pushes onto the message list. The action `login` commits `setUser`. The action `sendMessage` builds `{id: messages.length + 1, user: user.name, text}` and commits `addMessage`. The getter `getMessages` returns the list. The pure functions `ApplyMutation`, `ApplyAction` and `Run` are the specification. The class `Store.ChatStore` is the store object: its methods assign the two fields in place, and each is proved against that specification. The lemmas about `Run` and `IssuedIds` cover sequences of calls: the list only grows at its end, ids from successive `sendMessage` calls strictly increase, and a sent message stays at position `id - 1`.
- **The push bridge and service URLs** (`utils.dfy`, module `Utils`). This covers the fixed REST base URL and the push URL `http://localhost:6687/events?token=<token>`, with the token inserted raw. It also covers the three handlers `initSSE` installs. The `NewMessage` listener parses the data, deletes its `event` key and commits exactly one `addMessage` carrying `{channelId: data.chatId, message: data}`. The unnamed-message handler only logs. The error handler throws a ReferenceError, because it reads the undeclared `error`, so the `sse.close()` after it is never reached.
- **The route table and guard** (`router.dfy`, module `Router`). There are four declared routes, and only `/chat` carries `meta.requiresAuth`. The `beforeEach` guard calls `next({name: 'Login'})` exactly when some matched record requires auth and `!!localStorage.getItem('user')` is false. Otherwise it calls `next()`. So the decision is taken once per navigation, and the `Login` target is never redirected again.
- **JavaScript values** (`js.dfy`, module `Js`). This holds the part of the language the three files depend on: values, property reads that throw on `null`/`undefined`, `delete`, truthiness and the exceptions raised.

The three files have no per-channel message map, no persistence, no sign-in or sign-out and no user roster. The model follows the code: a single flat message list and a `user` field only.

Inputs the code gets from its environment are parameters:

- the token interpolated into the push URL is a string argument;
- the result of `JSON.parse(e.data)` is an `Option<Value>`, with `None` meaning the parse threw a SyntaxError;
- the value of `localStorage.getItem('user')` is an `Option<string>`;
- the records a navigation target matched are a sequence of route records.

## Model

| member | source | states |
|---|---|---|
| `Js.Member` | src/store/index.js:24 | a property read throws exactly when the object is null or undefined; otherwise it yields the own property or `undefined` |
| `Js.Delete` | src/utils.js:15 | `delete` throws exactly on null or undefined; on an object it removes exactly that key and keeps every other key's value; without the key the value is unchanged |
| `Js.DeleteKeepsOtherMembers` | src/utils.js:15-16 | after `delete data.event`, reading any other key (`chatId`) gives what it gave before |
| `Js.DeleteThenMemberUndefined` | src/utils.js:15 | after `delete data.event`, `data.event` reads as `undefined` |
| `Store.ApplyMutation` | src/store/index.js:8-15 | `setUser` sets `user` and leaves `messages` alone; `addMessage` leaves `user` alone, keeps every earlier entry in place and puts the new message last |
| `Store.ApplyAction` | src/store/index.js:16-29 | `login` is exactly a `setUser` commit; `sendMessage` succeeds iff the user is not null/undefined; on failure it throws a TypeError with the state unchanged; on success it appends `{id, user: user.name, text}` whose id is the new list length, leaving `user` unchanged |
| `Store.ApplyExtends` | src/store/index.js:8-29 | one commit or dispatch keeps the old list as a prefix and adds at most one entry |
| `Store.RunExtends` | src/store/index.js:8-29 | over any sequence of commits and dispatches the old list stays a prefix, so no message is removed or reordered and the length never decreases |
| `Store.IssuedIdsIncrease` | src/store/index.js:12-27 | ids issued by successive successful `sendMessage` calls strictly increase, so they are distinct; each lies between the starting length (exclusive) and the final length |
| `Store.IssuedIdIsPosition` | src/store/index.js:21-27 | a message sent with id k sits at index k - 1 of the list after any later operations, and still carries id k |
| `Store.AddTwiceOnEmpty` | src/store/index.js:12-14 | on an empty message list, `addMessage(m1)` then `addMessage(m2)` gives exactly `[m1, m2]` and leaves `user` unchanged |
| `Store.ChatStore.constructor` | src/store/index.js:4-7 | the store starts with `user` null and an empty message list |
| `Store.ChatStore.SetUser` | src/store/index.js:9-11 | assigns `user` in place; `messages` is unchanged |
| `Store.ChatStore.AddMessage` | src/store/index.js:12-14 | pushes onto `messages` in place; `user` is unchanged |
| `Store.ChatStore.Login` | src/store/index.js:17-20 | commits `setUser`: `user` becomes the argument, `messages` is unchanged |
| `Store.ChatStore.SendMessage` | src/store/index.js:21-28 | reads the length, then `user.name`, then commits; it follows `ApplyAction`, keeps `user`, and on success the last message's id is the new length |
| `Store.ChatStore.GetMessages` | src/store/index.js:31 | the getter returns the state's message list itself |
| `Utils.GetUrlBase` | src/utils.js:1-6 | always `http://localhost:6688/api` |
| `Utils.PushUrl` | src/utils.js:2-9 | the push URL is the stream address, then `?token=`, then the token verbatim (no encoding), with nothing else |
| `Utils.PushUrlRoundTrip` | src/utils.js:9 | the token can be read back out of the push URL unchanged |
| `Utils.PushUrlInjective` | src/utils.js:9 | two tokens giving the same push URL are equal |
| `Utils.NewMessagePayload` | src/utils.js:12-17 | unparsable data throws SyntaxError; null data throws TypeError at `delete`; otherwise the committed payload has exactly the keys `channelId` (the data's `chatId`) and `message` (the data without `event`) |
| `Utils.StoredMessageStripped` | src/utils.js:15-16 | the stored message has no `event` key; every other key keeps its value; a payload without `event` is stored as it arrived |
| `Utils.Commits` | src/utils.js:12-25 | one push event commits at most one `addMessage`; it commits exactly one iff it is a `NewMessage` whose handler reaches the commit, and that one is the listener's payload; named events of other types have no listener and commit nothing |
| `Utils.HandlerOutcome` | src/utils.js:12-25 | a handler ends normally iff it committed a message, or the event is a named event without a listener, or it is unnamed; a failing `NewMessage` listener throws the listener's error; the error handler always throws a ReferenceError |
| `Utils.AfterEvent` | src/utils.js:12-20 | after a push event, `user` is unchanged and `messages` is the old list followed by that event's commits |
| `Utils.NewMessageAppendsWrapper` | src/utils.js:16 | a handled `NewMessage` grows the list by exactly one, keeps earlier entries, and appends the `{channelId, message}` wrapper, which differs from the bare message |
| `Utils.OnNewMessage` | src/utils.js:12-17 | the listener changes the store exactly as `AfterEvent` says and ends as `HandlerOutcome` says |
| `Utils.Deliver` | src/utils.js:12-25 | for any push event, the store changes exactly as `AfterEvent` says: other named events, the unnamed handler and the error handler perform no mutation |
| `Router.SomeRequiresAuth` | src/router/index.js:21 | `matched.some(r => r.meta.requiresAuth)` is true iff some matched record has a truthy `requiresAuth` |
| `Router.IsAuthenticated` | src/router/index.js:20 | authenticated iff a `'user'` entry is stored and it is not the empty string |
| `Router.BeforeEach` | src/router/index.js:19-26 | the guard redirects to `Login` iff some matched record requires auth and the user is not authenticated; its only other call is `next()` |
| `Router.FindByPath` | src/router/index.js:6-11 | the route found for a path is the first one in the table with that path; none is found only when no route has that path |
| `Router.FindByName` | src/router/index.js:6-11 | the route found for a name is the first one in the table with that name; none is found only when no route has that name |
| `Router.RootRedirectsToLogin` | src/router/index.js:7 | the path `/` is declared as a redirect to `/login` |
| `Router.OnlyChatRequiresAuth` | src/router/index.js:8-10 | among the declared routes, a route requires auth iff its path is `/chat` |
| `Router.GuardOnDeclaredRoutes` | src/router/index.js:6-25 | navigating to `/chat` is redirected iff no non-empty `'user'` entry is stored; navigating to `/`, `/login` or `/register` always proceeds |
| `Router.RedirectTargetUnprotected` | src/router/index.js:8-22 | whenever the guard redirects, the target is the `/login` route, and the guard lets a navigation to it proceed, so a navigation is redirected at most once |

## Left out

- The `EventSource` connection itself (opening, readiness, the browser's automatic reconnects) is I/O. Only the handlers' effect on the store is modelled. Because the error handler throws before `sse.close()`, no closed state is modelled.
- `JSON.parse` and the `console` calls are foreign calls. A parse result is an input, and logging has no modelled effect.
- `store.state.token` is read when the push URL is built, but the store has no such field. At run time the template therefore yields `?token=undefined`. The model takes the token as a string argument.
- `main.js` dispatches `loadUserState`, which the store does not define. No bootstrap behaviour is modelled.
- The Tauri host (`src-tauri/src/lib.rs`) sets up windows, menus, a tray and logging. It is not part of this model.
- vue-router resolution is not modelled. `FindByPath` and `FindByName` are plain first-match lookups over the flat table, and matched records are an input to the guard. Redirect chains, history and rendering belong to the library.
- JavaScript numbers are modelled as unbounded integers. Floating point, NaN and the 2^53 limit do not arise for message ids in practice.
- `Js.Member` and `Js.Delete` model own properties of objects only. Inherited properties, array indices and `length` are not represented. The keys used here (`name`, `chatId`, `event`, `requiresAuth`) are none of these.
- The message object that `delete` mutates is fresh from `JSON.parse` and is referenced only by the listener until it is stored. The model therefore treats it as a value: aliasing of that object is not captured.
- `Store.ChatStore.GetMessages`: in the source the getter hands out the live array, so later `push` calls are visible through a list obtained earlier. The model's message list is a value, so that sharing is not captured.
- Vuex's reactivity, devtools hooks and the promise that `dispatch` returns are not modelled. An action that throws leaves the state as it was, and `Run` continues with the next operation.
