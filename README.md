# Chat client core: avatar cache, participant selection, transport and presence server

A Dafny model of the small stateful core of a web chat application: an
Angular client that talks to a Django REST API and to a Python Socket.IO
server. Five pieces are modelled, each in the form the code has:

- **Avatar resolution and cache** (`avatars.dfy`, from `user.service.ts`).
  `AvatarUrlFor` is the pure decision chain that turns a fetched user
  record into a URL. `UserService` is a class whose `avatarCache` map is
  updated in place by `getAvatarUrl`, by `clearAvatarCache` and by the
  cross-tab `storage` listener. The HTTP fetch is an input outcome
  (`Some(user)`, or `None` for a failed request). The storage items are
  inputs too: the `avatar_cache_invalidated` flag and the stored `user_id`.
- **Participant selection** (`user_search.dfy`, `create_chat.dfy`, from the
  two create-chat components). Both are classes. The selected-id array is
  an `IdList` object (`id_lists.dfy`). It is shared by reference: the
  search component emits its own array and the dialog adopts it in
  `onUserSelected`. `Toggle`, `Initials` and `FilterOutId` (`users.dfy`)
  are the pure parts, each with its contract and lemmas.
- **Client transport** (`websocket.dfy`, from `websocket.service.ts`). The
  class keeps the `connected` flag and the nullable socket. The socket is
  modelled as a log of emitted frames, each tagged with the socket it went
  out on. Each RxJS subject is modelled as a log of what it published.
  `Receive` is the set of handlers `setupEventListeners` installs, called
  once per inbound frame.
- **Presence server** (`socket_server.dfy`, from `back/socket_server.py`).
  The `Server` class holds `connected_users` as its key order plus a map,
  because Python dicts keep insertion order and `disconnect` removes the
  *first* matching entry. It also holds the stored chats and messages and
  an outbox of every `sio.emit`. Token decoding and the user table are
  constant maps given to the constructor, together with the chats already
  in the database and the tables' next auto-increment ids. The REST API
  writes the same database, so `POST /chats/` and `POST /messages/` are
  methods of the server too. The recipient loops of
  `chat_create` and `message_create` are read-only methods, each proved
  against a specification.

Notes on behaviour the model makes explicit:
- Sends are enabled by the transport's own `connect` event
  (`websocket.service.ts:84-88`); `auth_success` is only logged
  (`:96-98`). `AuthSuccessDoesNotEnableSends` shows that an
  `auth_success` alone does not enable sending.
- Every cached avatar URL is non-empty (`UserService.Valid`), so the
  `|| defaultAvatarUrl` fallback on a cache hit (`user.service.ts:74`) can
  never fire.
- The avatar cache is written only when a response arrives
  (`user.service.ts:99,103`), so `getAvatarUrl` is two steps here: the
  lookup (`GetAvatarUrl`) and the completion (`OnAvatarFetched`). Two
  misses for the same id before the first completes both fetch; they are
  not coalesced (`MissesAreNotCoalesced`). A cross-tab invalidation that
  lands while a request is in flight is overwritten by the late response
  (`LateResponseRefillsClearedCache`).
- `clearAvatarCache(0)` clears the whole cache, because `0` is falsy.
- The server stores no chat name: `chat_create` ignores the `name` the
  client sends (`socket_server.py:63`).
- `message_create` does not check that the sender belongs to the chat.
- A creator who lists their own id and is registered in `connected_users`
  on the requesting sid receives `chat:created` twice there
  (`SelfListedCreatorReceivesTwice`). A creator who has not authenticated
  on the socket gets only the copy sent to the requesting sid.
- The backend's `UserSerializer` (`back/api/serializers.py:20-23`) sends
  no `avatar_url`. The model keeps the client's first branch anyway, as an
  optional field.

## Model

| member | source | states |
|---|---|---|
| `IdLists.IndexOf` | front/src/project/components/create-chat/user-search.component.ts:244 | -1 exactly when the id is absent; otherwise a position holding the id with no earlier occurrence |
| `IdLists.RemoveAt` | front/src/project/components/create-chat/user-search.component.ts:248 | `splice(i, 1)`: one element shorter, elements before `i` unchanged, later ones shifted down by one |
| `IdLists.RemoveFirst` | front/src/project/components/create-chat/create-chat.component.ts:282-284 | the result is the list without the first occurrence of the id, everything else in order |
| `IdLists.RemoveAtDistinct` | front/src/project/components/create-chat/user-search.component.ts:247-248 | splicing a duplicate-free list keeps it duplicate-free and drops exactly the spliced id |
| `Users.FilterOutId` | front/src/project/components/create-chat/user-search.component.ts:232 | a user is kept iff it was in the input and its id differs from the given one; NaN (`None`) drops nothing |
| `Users.FilterOutIdAppend` | front/src/project/components/create-chat/user-search.component.ts:232 | filtering distributes over concatenation, so the kept users stay in their original order |
| `Users.FilterOutIdNoMatch` | front/src/project/components/create-chat/user-search.component.ts:232 | when no user carries the id, the list is returned unchanged |
| `Avatars.AvatarUrlFor` | front/src/project/services/user.service.ts:80-97 | never empty; a truthy `avatar_url` is returned as is; a truthy `avatar` gives an `http...` URL ending with that path; neither gives `assets/default-avatar.png` |
| `Avatars.RootRelativeAvatar` | front/src/project/services/user.service.ts:90-91 | an avatar starting with `/` resolves to `http://localhost:8000` + avatar |
| `Avatars.AbsoluteAvatar` | front/src/project/services/user.service.ts:92-93 | an avatar starting with `http` is returned unchanged |
| `Avatars.MediaRelativeAvatar` | front/src/project/services/user.service.ts:94-95 | any other avatar resolves to `http://localhost:8000/media/` + avatar |
| `Avatars.ResolvedAvatarIsStable` | front/src/project/services/user.service.ts:88-96 | resolving a record whose avatar is its own resolved URL gives that URL again |
| `Avatars.UserService.constructor` | front/src/project/services/user.service.ts:13-24 | the cache starts empty and nothing has been fetched |
| `Avatars.UserService.GetAvatarUrl` | front/src/project/services/user.service.ts:63-79 | with the flag set and the current user, that entry is dropped first; a hit answers the cached, non-empty URL with no fetch; a miss issues exactly one request for this id and leaves the cache as it is until the response |
| `Avatars.UserService.OnAvatarFetched` | front/src/project/services/user.service.ts:80-106 | the response's resolved URL, or the default when the request failed, is cached for this id (over whatever the cache holds by then) and answered; it is never empty |
| `Avatars.UserService.ClearAvatarCache` | front/src/project/services/user.service.ts:109-115 | a truthy id removes only that key; no id, or id 0, empties the cache |
| `Avatars.UserService.OnStorage` | front/src/project/services/user.service.ts:16-23 | a storage event for `avatar_cache_invalidated` empties the cache; any other key changes nothing |
| `Avatars.InvalidatedLookupRefetches` | front/src/project/services/user.service.ts:65-106 | after invalidation the current user's next lookup issues a fetch even though it was cached, its completion caches the freshly resolved URL, and another user's entry is untouched |
| `Avatars.MissesAreNotCoalesced` | front/src/project/services/user.service.ts:73-79 | two lookups of an uncached id before any response both issue a request, and the cache is unchanged |
| `Avatars.LateResponseRefillsClearedCache` | front/src/project/services/user.service.ts:99-103 | an invalidation between a miss and its response is undone for that id: the cache ends holding exactly that id, with the resolved URL |
| `UserSearch.Initials` | front/src/project/components/create-chat/user-search.component.ts:258-261 | empty iff the name is empty; otherwise the first two characters (one for a one-character name), upper-cased. The same method at create-chat.component.ts:289-292 is modelled by this function |
| `UserSearch.Toggle` | front/src/project/components/create-chat/user-search.component.ts:243-249 | an absent id is appended at the end; a present id loses its first occurrence, the rest keeping their order |
| `UserSearch.ToggleFlipsMembership` | front/src/project/components/create-chat/user-search.component.ts:243-249 | on a duplicate-free list: the toggled id's membership flips, every other id's is unchanged, and the list stays duplicate-free |
| `UserSearch.ToggleTwiceRestores` | front/src/project/components/create-chat/user-search.component.ts:243-249 | toggling an absent id twice gives back the original list |
| `UserSearch.UserSearchComponent.constructor` | front/src/project/components/create-chat/user-search.component.ts:201-205 | empty term, results and selection; not loading, not searched |
| `UserSearch.UserSearchComponent.SearchUsers` | front/src/project/components/create-chat/user-search.component.ts:213-227 | a term that trims to empty changes nothing; otherwise loading and searched are set and one request for the term is issued |
| `UserSearch.UserSearchComponent.OnSearchResults` | front/src/project/components/create-chat/user-search.component.ts:229-234 | the results are the fetched users minus the current user; loading is cleared |
| `UserSearch.UserSearchComponent.OnSearchError` | front/src/project/components/create-chat/user-search.component.ts:235-239 | the results are empty and loading is cleared |
| `UserSearch.UserSearchComponent.ToggleUserSelection` | front/src/project/components/create-chat/user-search.component.ts:243-252 | the same array is updated in place to `Toggle` of its old contents, stays duplicate-free, the id's membership flips, and that array is emitted |
| `UserSearch.UserSearchComponent.IsSelected` | front/src/project/components/create-chat/user-search.component.ts:254-256 | true iff some position of the selection holds the id |
| `UserSearch.UserSearchComponent.ClearSelection` | front/src/project/components/create-chat/user-search.component.ts:263-266 | a fresh empty array becomes the selection and is emitted; the previous array is left as it was |
| `CreateChat.FilterOutIdUnique` | front/src/project/components/create-chat/create-chat.component.ts:285 | filtering a list whose ids are unique keeps them unique |
| `CreateChat.CreateChatComponent.constructor` | front/src/project/components/create-chat/create-chat.component.ts:231-234 | empty name, not a group, no ids, no users |
| `CreateChat.CreateChatComponent.OnUserSelected` | front/src/project/components/create-chat/create-chat.component.ts:242-245 | adopts the emitted array itself (aliasing), empties the user list and issues one fetch per id |
| `CreateChat.CreateChatComponent.LoadSelectedUsersDetails` | front/src/project/components/create-chat/create-chat.component.ts:247-279 | the user list is emptied in both branches; no ids means no fetches, otherwise one fetch per id in order |
| `CreateChat.CreateChatComponent.OnUserFetched` | front/src/project/components/create-chat/create-chat.component.ts:269-273 | the user is appended only if no listed user has its id; ids in the list stay unique and the id is then listed |
| `CreateChat.CreateChatComponent.RemoveUser` | front/src/project/components/create-chat/create-chat.component.ts:281-287 | an unselected id changes nothing; otherwise its first occurrence leaves the shared id array and every user with that id leaves the user list |
| `CreateChat.CreateChatComponent.CreateChat` | front/src/project/components/create-chat/create-chat.component.ts:294-312 | no ids: one alert and no event; otherwise exactly one event with the current ids, name and group flag |
| `CreateChat.SelectThenRemove` | front/src/project/components/create-chat/create-chat.component.ts:39 | through the template binding, the dialog and the search hold one array, so removing a just-selected user in the dialog also deselects it in the search |
| `WebSocket.FanOutStatuses` | front/src/project/services/websocket.service.ts:127-135 | one status event per `online_users` entry, in entry order, with the entry's id and value |
| `WebSocket.WebSocketService.constructor` | front/src/project/services/websocket.service.ts:34-48 | no socket, not connected, all logs empty |
| `WebSocket.WebSocketService.Connect` | front/src/project/services/websocket.service.ts:52-73 | an existing socket is closed; a new socket becomes current and `auth` is its first frame; the new socket is one never closed and never sent on before; `connected` is not touched; if `io` throws, `false` is published and the old reference stays |
| `WebSocket.WebSocketService.Disconnect` | front/src/project/services/websocket.service.ts:152-158 | afterwards not connected and no socket; an existing socket is closed; no frame is sent and nothing is published |
| `WebSocket.WebSocketService.SendMessage` | front/src/project/services/websocket.service.ts:160-171 | one `message_create` frame on the current socket iff there is a socket and `connected`; otherwise nothing |
| `WebSocket.WebSocketService.CreateChat` | front/src/project/services/websocket.service.ts:173-185 | one `chat_create` frame iff there is a socket and `connected`; otherwise nothing |
| `WebSocket.WebSocketService.SearchUsers` | front/src/project/services/websocket.service.ts:187-197 | one `search_users` frame iff there is a socket and `connected`; otherwise nothing |
| `WebSocket.WebSocketService.GetOnlineStatus` | front/src/project/services/websocket.service.ts:199-208 | one `get_online_users` frame iff there is a socket, `connected`, and at least one id; otherwise nothing |
| `WebSocket.WebSocketService.IsConnected` | front/src/project/services/websocket.service.ts:210-212 | returns the `connected` flag |
| `WebSocket.WebSocketService.Receive` | front/src/project/services/websocket.service.ts:81-140 | `connect`/`disconnect` set the flag and publish true/false; messages, chats, search results and single status changes are republished once each, unchanged; `online_users` publishes one status per entry; auth and error events change nothing; sockets and frames are never touched |
| `WebSocket.DisconnectTwice` | front/src/project/services/websocket.service.ts:152-158 | a second `disconnect` closes nothing more and leaves the same state as one |
| `WebSocket.AuthSuccessDoesNotEnableSends` | front/src/project/services/websocket.service.ts:84-98 | after `connect` and `auth_success` but no transport `connect` event, a send emits nothing; only the `auth` frame is on the wire |
| `SocketServer.UserFromToken` | back/socket_server.py:22-28 | a user is returned iff the token is present, decodes, and names an existing user |
| `SocketServer.FirstWithSid` | back/socket_server.py:39-42 | the first item in insertion order whose sid matches, or none when no item matches |
| `SocketServer.ChatMembers` | back/socket_server.py:62-64 | the participants are exactly the existing users among the requested ids and the creator; an existing creator is always included |
| `SocketServer.ChatCreatedTargets` | back/socket_server.py:68-72 | the targets are the sids of the listed, connected participants in list order, then the requester |
| `SocketServer.ListedTargetsReach` | back/socket_server.py:68-70 | every listed participant that is connected is sent the event |
| `SocketServer.ListedTargetsOnly` | back/socket_server.py:68-70 | every target is the sid of some listed, connected participant |
| `SocketServer.SelfListedCreatorReceivesTwice` | back/socket_server.py:68-72 | a creator who lists themselves and is registered on the requesting sid gets the event at least twice there |
| `SocketServer.MessageRecipients` | back/socket_server.py:87-89 | each connected participant exactly once (no duplicates), and nobody who is not both a participant and connected |
| `SocketServer.Server.constructor` | back/socket_server.py:19 | nobody is connected and nothing is sent; the chats already in the database are stored, each under its own id and below the next chat id |
| `SocketServer.PyStrip` | back/api/serializers.py:26-35 | the value a text field is cleaned to: the slice of the input between its leading and its trailing whitespace (Python's whitespace set), neither starting nor ending with whitespace |
| `SocketServer.CleanText` | back/api/serializers.py:26-35 | a text field validates iff its stripped value has no NUL and, where the model field has a maximum length, is no longer than it; what is stored is the stripped value |
| `SocketServer.PaddedNameIsStripped` | back/api/models.py:15 | the chat name `"  Team  "` validates and is stored as `"Team"` |
| `SocketServer.LengthIsCheckedAfterStripping` | back/api/models.py:15 | 255 letters followed by two spaces pass the 255-character limit, because the limit applies to the stripped name |
| `SocketServer.Server.StoreChatOverRest` | back/api/views.py:57-60 | a chat is stored iff the name cleans to at most 255 characters without NUL and the participant list is non-empty with only existing users; it is stored with the stripped name under the next, unused chat id, which then advances; nothing is sent on the socket |
| `SocketServer.Server.StoreMessageOverRest` | back/api/views.py:63-66 | a message is stored iff its sender and chat exist and its stripped text has no NUL; it is stored with the stripped text under the next message id, which then advances; nothing is sent on the socket |
| `SocketServer.RestChatAcceptsSocketMessages` | back/socket_server.py:83-89 | a chat created over REST after start-up is found by `message_create`: a socket message to it is stored, in that chat and from the token's user |
| `SocketServer.Server.Auth` | back/socket_server.py:45-53 | a valid token maps its user to this sid, replacing an older sid at the same position or appending a new key, and answers `auth_success`; an invalid one changes nothing and answers `auth_error` |
| `SocketServer.Server.Disconnect` | back/socket_server.py:36-42 | with no entry for the sid nothing changes; otherwise only the first entry holding it is removed, the others keeping their order |
| `SocketServer.Server.ChatCreate` | back/socket_server.py:56-72 | a bad token gets `error` and no chat; otherwise one new chat under the next, unused id (which then advances), the creator among its participants and no name, sent to the listed connected participants and then the requester |
| `SocketServer.Server.MessageCreate` | back/socket_server.py:75-89 | a bad token gets `error` and no message; an unknown chat stores and sends nothing; otherwise the message is stored under the next message id, which no stored message has and which then advances (stored ids stay increasing), and it is sent once to each connected participant and to no one else |

## Left out

- Timers and reconnection are left out: the 30-second heartbeat (`websocket.service.ts:142-149`) is timing, and the reconnection options (`:58-63`) are library configuration.
- Socket.IO fires a `disconnect` event synchronously when a connected socket is closed. The model leaves that to a separate `Receive(Disconnect)` call.
- Asynchronous interleaving is modelled only as separate calls: every HTTP completion and every inbound frame is its own sequential method call, in whatever order the caller makes them.
- `Avatars.UserService.GetAvatarUrl`: the request is logged when the lookup is made; in the code the returned `Observable` issues it only when it is subscribed.
- HTTP headers, bearer tokens, URLs of requests, `console` output and the template's disabled button are left out. `alert` is kept as a log of texts.
- `Number(...)` parsing is left out. The stored `user_id` arrives as `Option<int>` (`None` for NaN; a missing item is `Some(0)`, as `Number(null)` is 0). The keys of an `online_users` map arrive as numbers, in `Object.entries` order.
- `UserSearch.Initials`: upper-cases ASCII letters only; `toUpperCase`'s full Unicode mapping (which can lengthen a string) and UTF-16 code units are not modelled.
- `CreateChat.CreateChatComponent.CreateChat`: the emitted event carries the ids as a value; in the code it carries the live array, which later edits change.
- `SocketServer.MessageRecipients`: the database's iteration order over participants is not modelled; any order is allowed.
- `SocketServer.Server.MessageCreate`: a missing `chat_id` or `text` and database errors other than an unknown chat are not modelled; the handler's exception is modelled as "nothing stored, nothing sent".
- The server's `connect` handler only prints and is left out, and so is serving with eventlet. The server has no handlers for `search_users`, `get_online_users` or `heartbeat`, so the model has none either.
- JWT decoding and the ORM are constant maps (`claims`, `users`) and stored records. Timestamps and the serializer's exact field set are not modelled.
- `SocketServer.Server.StoreChatOverRest`: the REST API's token authentication, its HTTP responses and the optional fields beyond name, participants and group flag are not modelled; only the database write is.
- `SocketServer.Server.StoreMessageOverRest`: as above; the `image`, `is_read` and timestamp fields are not modelled.
- The other REST operations (listing, updating and deleting chats and messages, users and images), the client's REST services (`chat.service.ts`, `auth.service.ts`), the pages, routing and configuration are not part of this model.
