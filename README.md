# react-live-chatroom-api: the chat relay and its authentication, in Dafny

This project models the real-time core of the react-live-chatroom-api server and proves properties of that model. It also models the Express middleware that authenticates the REST API.

**Chat relay** (src/websocket.ts and the connection handlers of src/index.ts):
- A module-level registry maps each WebSocket connection to the `{ userId, roomId }` it last joined with.
- A `join` frame registers the connection, confirms the join to it, and replays the room's history to it.
- A `message` frame from a registered connection is stored in the message table and broadcast to every open connection registered for the frame's room. When storing fails, only the sender gets an error notice.
- `close` forgets the connection.

**Authentication** (src/middleware/auth.ts, src/middleware/apiAuth.ts, src/utils/getToken.ts, src/utils/jwt.ts):
- `getToken` takes the bearer token; a truthy `body.token` overrides it.
- `authenticate` and `authorizeAdmin` guard the user routes.
- `authenticateApiToken` tries, in order: a development bypass, a query token, a bearer or body token, the user cookie, and a temporary public fallback for Cloudflare GETs.
- `authorizeClient` and `authenticateClientToken` admit CLIENT tokens only.
- `authorizeRoomAccess` lets a CLIENT through and looks up room membership for anyone else.
- Of src/utils/jwt.ts, the model covers which payload `generateAPIToken` signs and the single error message every verification failure becomes.

Modules, one per source file:
- `Json`: the value of a frame field. It is `undefined`, a string, or some other JSON value.
- `Store`: the message table as the relay uses it.
- `WebSocket`: the registry, the per-connection outboxes, and the four handlers. They are stated as functions on a value state `Net`/`World`, and class `Hub` implements them as methods on mutable state.
- `Server`: the `message` and `close` handlers of src/index.ts.
- `Http`: requests and middleware outcomes.
- `Tokens`, `Jwt`, `Auth`, `ApiAuth`: the authentication files.

Where the code and the design intent differ, the model follows the code:
- **The history replay returns the oldest 50 messages of a room**, not the most recent 50. The query sorts ascending by `createdAt` and takes the first 50; the comment on src/websocket.ts:106 says "last 50". `Store.HistoryIsOldest` and `Store.HistoryOmitsNewest` state the behaviour as written.
- **The join event is not validated.** Whatever `userId` and `roomId` the frame carries are stored, including absent or non-string values (`Server.JoinFrameIsNotValidated`).
- **A message is stored and broadcast under the frame's own `roomId`**, not the room the sender joined (`WebSocket.StoredMessageFollowsEvent`).

Things the model treats as external:
- The database is a foreign system. The identifier, creation time and author name of a new row, and whether a call throws, are parameters. `message.create` is assumed to throw unless `content`, `userId` and `roomId` are all strings. `findMany` with `roomId: undefined` selects every row. Any other non-string `roomId` is read by the database itself: a filter object such as `{ "contains": "" }` selects rows of any room, and other values are rejected. That reading is a parameter (`ObjectFilter`).
- JWT signing and verification are parameters (`sign`, `verify`). `verify` answers None exactly where `jwt.verify` throws. The user cookie is verified with the same secret as API tokens (src/utils/userTokenCookie.ts:5), so the same `verify` is used.
- Environment variables are an `Env` value.

## Model

| member | source | states |
|---|---|---|
| Store.CreateOutcome | src/websocket.ts:142-156 | a row is created exactly when there is no fault and content, userId and roomId are all strings; the row carries those three values, and its author is the sender |
| Store.Selection | src/websocket.ts:94 | `where: { roomId }` selects every row for an undefined roomId and exactly the room's rows for a string; any other value is selected, or rejected, as the database reads it |
| Store.Where | src/websocket.ts:94 | the kept rows all satisfy the selection, and each selected row occurs as often as in the table |
| Store.Insert | src/websocket.ts:103-105 | inserting into an ascending sequence gives an ascending sequence holding exactly the old rows plus the new one |
| Store.SortByCreatedAt | src/websocket.ts:103-105 | the result is ascending by createdAt and a permutation of the input |
| Store.History | src/websocket.ts:93-107 | at most 50 rows, ascending by createdAt, drawn from the selected rows |
| Store.FindManyOutcome | src/websocket.ts:93-107 | the query throws exactly on a fault or a rejected roomId; otherwise it returns at most 50 selected rows from the table, all of the room when roomId is a string |
| Store.PrefixOfAscending | src/websocket.ts:106 | taking a prefix of an ascending sequence keeps it ascending and adds nothing |
| Store.HistoryShape | src/websocket.ts:93-107 | the history holds min(count, 50) messages, ascending, a sub-multiset of the selected messages, each selected and from the table |
| Store.HistoryKeepsAllOfSmallRoom | src/websocket.ts:93-107 | at most 50 selected messages are replayed completely |
| Store.HistoryIsOldest | src/websocket.ts:103-106 | every selected message left out of the history is no older than every message in it |
| Store.NewestIsLast | src/websocket.ts:103-106 | in an ascending sequence, a single strictly newest message lies beyond any proper prefix |
| Store.HistoryOmitsNewest | src/websocket.ts:103-106 | with more than 50 selected messages, the single newest one is not replayed |
| Store.MessageStore.constructor | src/websocket.ts:142 | the message table the handlers write starts empty |
| Store.MessageStore.Create | src/websocket.ts:142-156 | the call answers `CreateOutcome`, and the table grows by exactly the created row, or not at all |
| Store.MessageStore.FindMany | src/websocket.ts:93-107 | the query answers `FindManyOutcome` on the current table and changes nothing |
| WebSocket.Send | src/websocket.ts:186 | a send appends the payload to that connection's outbox and changes no other socket and not the registry |
| WebSocket.Broadcast | src/websocket.ts:181-189 | a broadcast keeps the registry, the connections and every ready state, and leaves every connection that is not an open member of the room untouched |
| WebSocket.Replay | src/websocket.ts:87-118 | the joiner alone receives one `previous_messages` payload holding the query's answer, or nothing when the query threw |
| WebSocket.JoinRoom | src/websocket.ts:57-77 | the registry entry of the joiner becomes the event's fields; the joiner alone receives the confirmation and then the history |
| WebSocket.JoinStep | src/websocket.ts:57-77 | a join reads the table without writing it and keeps the registry valid |
| WebSocket.NewMessageStep | src/websocket.ts:128-172 | a message event keeps the registry and the connections, and appends exactly one row exactly when the sender is registered and the create succeeds |
| WebSocket.BroadcastReachesExactlyTheRoom | src/websocket.ts:181-189 | a broadcast appends the payload once to every connection registered for the room whose state is OPEN, and to no other; ready states and the registry are unchanged |
| WebSocket.BroadcastsArriveInOrder | src/websocket.ts:181-189 | two broadcasts reach a member of the room in the order they were made |
| WebSocket.JoinReplacesEntry | src/websocket.ts:62-65 | a join records exactly the event's userId and roomId for the connection, replacing any earlier entry; other entries and the table are untouched |
| WebSocket.JoinSendsOnlyToJoiner | src/websocket.ts:57-118 | a join sends the confirmation and then exactly one history payload to the joiner, or only the confirmation when the query throws; no other connection receives anything |
| WebSocket.JoinWithoutRoomReplaysEveryRoom | src/websocket.ts:62-65 | a join with no roomId is confirmed and sent the oldest messages of the whole table, all of them when there are at most 50 |
| Store.SelectAllKeepsEverything | src/websocket.ts:94 | a selection that holds for every row keeps the table as it is |
| WebSocket.RejoinLeavesEarlierRoom | src/websocket.ts:65 | after a second join to another room, a broadcast to the first room misses the connection |
| WebSocket.UnregisteredSenderIsIgnored | src/websocket.ts:134-138 | a message from a connection that never joined changes nothing |
| WebSocket.StoredMessageFollowsEvent | src/websocket.ts:140-162 | a stored message is appended to the table with the frame's fields and broadcast to the frame's room, whatever the sender's registry entry says |
| WebSocket.SaveFailureNotifiesSenderOnly | src/websocket.ts:163-171 | when storing fails, only the sender gets one "Failed to save message" notice; nothing is stored or broadcast |
| WebSocket.StepsKeepRegistryValid | src/websocket.ts:57-172 | joins and messages keep every registered connection a known connection |
| WebSocket.Hub.constructor | src/websocket.ts:47 | the registry starts empty |
| WebSocket.Hub.Accept | src/index.ts:59 | a new connection is fresh and open, nothing has been sent to it, and the registry is unchanged |
| WebSocket.Hub.SetReadyState | src/websocket.ts:185 | only the ready state of that connection changes |
| WebSocket.Hub.SendTo | src/websocket.ts:68-73 | the payload is appended to that connection's outbox only |
| WebSocket.Hub.HandleJoinRoom | src/websocket.ts:57-77 | the new state is `JoinStep` of the old one |
| WebSocket.Hub.SendPreviousMessages | src/websocket.ts:87-118 | the joiner receives the query's answer, or nothing when the query throws |
| WebSocket.Hub.HandleNewMessage | src/websocket.ts:128-172 | the new state and table are `NewMessageStep` of the old ones |
| WebSocket.Hub.BroadcastToRoom | src/websocket.ts:181-189 | the loop over the registry ends in `Broadcast` of the old state |
| Server.Dispatch | src/index.ts:62-81 | one frame stores at most one message, only appends to the table, registers at most its own connection, and keeps the registry valid |
| Server.Disconnect | src/index.ts:83-87 | the connection leaves the registry, every other entry stays, and the sockets are untouched |
| Server.UnparseableFrameChangesNothing | src/index.ts:62-81 | a frame that fails to parse is caught, and nothing changes |
| Server.UnknownTypeChangesNothing | src/index.ts:75-77 | a frame of any type other than "join" or "message" changes nothing |
| Server.JoinFrameIsNotValidated | src/index.ts:67-70 | a "join" frame registers whatever fields it carries and confirms the join to its sender |
| Server.MessageFrameIsHandled | src/index.ts:71-74 | a "message" frame is handled by the new-message handler with the frame's fields |
| Server.ClosedConnectionIsForgotten | src/index.ts:83-87 | after close, broadcasts miss the connection and its later messages do nothing |
| Server.CloseForgetsOnlyTheConnection | src/index.ts:86 | close removes only that entry and keeps the registry valid |
| Server.OnMessage | src/index.ts:62-81 | the new state is `Dispatch` of the old one |
| Server.OnClose | src/index.ts:83-87 | the new state is `Disconnect` of the old one |
| Tokens.Split | src/utils/getToken.ts:9 | `split(" ")` gives at least one piece, and no piece holds a space |
| Tokens.JoinSplit | src/utils/getToken.ts:9 | joining the pieces with spaces gives back the split string |
| Tokens.SplitJoin | src/utils/getToken.ts:9 | splitting space-free pieces joined with spaces gives back the pieces |
| Tokens.SplitAfterWord | src/utils/getToken.ts:9 | a space-free word followed by a space splits off as the first piece |
| Tokens.SplitWord | src/utils/getToken.ts:9 | a space-free string splits into itself |
| Tokens.FirstPieceIsFirstWord | src/utils/getToken.ts:9 | the first piece is a prefix ending at the first space or at the end |
| Tokens.IsBearer | src/utils/getToken.ts:7 | the header is present and its first seven characters are exactly "Bearer " |
| Tokens.HeaderToken | src/utils/getToken.ts:7-9 | the header token is the first piece of the text after "Bearer " |
| Tokens.GetToken | src/utils/getToken.ts:3-14 | a truthy body token wins; otherwise a "Bearer " header gives its first word; null exactly when neither applies |
| Tokens.BearerTokenIsFirstWord | src/utils/getToken.ts:7-9 | the header token holds no space, begins the rest of the header, and ends at a space or at the end |
| Tokens.TwoWordHeader | src/utils/getToken.ts:9 | "Bearer a b" gives "a" |
| Tokens.EmptyBearerHeader | src/utils/getToken.ts:7-9 | "Bearer " gives the empty, falsy token |
| Tokens.LowerCaseBearerIsIgnored | src/utils/getToken.ts:8 | the prefix test is case-sensitive |
| Tokens.EmptyBodyTokenDoesNotOverride | src/utils/getToken.ts:10-12 | an empty body token leaves the header token in place |
| Jwt.ApiTokenPayload | src/utils/jwt.ts:77-94 | a USER payload needs username and role and copies just those; a CLIENT payload needs email and copies just that; anything else is "Invalid payload for token generation" |
| Jwt.GenerateApiToken | src/utils/jwt.ts:73-99 | the token is the signature of exactly that payload, and nothing is signed when it is rejected |
| Jwt.GeneratedPayloadIsTagged | src/utils/jwt.ts:79-92 | the type tag matches the requested type, and the fields that do not belong to that type are absent |
| Jwt.VerifyToken | src/utils/jwt.ts:55-61 | the claims when verification succeeds, else "Invalid or expired token" |
| Jwt.VerifyApiToken | src/utils/jwt.ts:101-107 | the claims when verification succeeds, else "Invalid or expired token" |
| Auth.AuthenticateDecision | src/middleware/auth.ts:9-28 | 401 "No token provided" exactly when no truthy token is found; 401 "Invalid token" exactly when it fails verification; otherwise next with its claims |
| Auth.AuthorizeAdmin | src/middleware/auth.ts:30-41 | next exactly for a user whose role is "ADMIN", else 403 |
| Auth.LowerCaseAdminIsRefused | src/middleware/auth.ts:35 | role "admin" is refused |
| Auth.AuthRequest.constructor | src/middleware/auth.ts:5-7 | `req.user` starts unset |
| Auth.AuthRequest.Authenticate | src/middleware/auth.ts:9-28 | answers `AuthenticateDecision`; `req.user` is set exactly on the way to next |
| ApiAuth.BypassEnabled | src/middleware/apiAuth.ts:27 | production never bypasses; the bypass needs BYPASS_AUTH exactly "true"; an unset NODE_ENV counts as not production |
| ApiAuth.PublicAccess | src/middleware/apiAuth.ts:82 | a GET whose Host header contains "cloudflare" at some index; no Host header never qualifies |
| ApiAuth.CookieApiUser | src/middleware/apiAuth.ts:66-77 | the cookie user keeps userId, username and role, is a USER, and may read and write but not delete |
| ApiAuth.UserFromCookie | src/utils/userTokenCookie.ts:40-53 | the cookie's claims exactly when the cookie is truthy and verifies |
| ApiAuth.Contains | src/middleware/apiAuth.ts:82 | `includes` holds exactly when the substring occurs at some index |
| ApiAuth.CloudflareHostTest | src/middleware/apiAuth.ts:82 | the host test matches "my.cloudflare.dev" and is case-sensitive |
| ApiAuth.QueryGrant | src/middleware/apiAuth.ts:44-53 | the query rung applies exactly when the query token is truthy and verifies |
| ApiAuth.AuthenticateApiTokenDecision | src/middleware/apiAuth.ts:20-105 | the first applicable rung decides, in the order bypass, query token, bearer or body token, cookie, Cloudflare GET |
| ApiAuth.RefusalsOfAuthentication | src/middleware/apiAuth.ts:20-105 | every refusal is a 401; "Invalid token" exactly when the bearer or body token fails, "No token provided" exactly when no rung applies |
| ApiAuth.InvalidQueryTokenFallsThrough | src/middleware/apiAuth.ts:44-53 | a query token that fails verification is the same as no query token |
| ApiAuth.HeaderTokenShadowsCookieAndHost | src/middleware/apiAuth.ts:55-61 | once a truthy bearer or body token is present, the cookie, host and method do not matter |
| ApiAuth.AnonymousAccessIsReadOnly | src/middleware/apiAuth.ts:81-100 | without a credential, access is granted only for a Cloudflare GET, and then read-only |
| ApiAuth.AuthorizeClient | src/middleware/apiAuth.ts:110-119 | next exactly for an API user of type CLIENT, else 403 |
| ApiAuth.AuthenticateClientToken | src/middleware/apiAuth.ts:125-128 | an authentication refusal passes through unchanged; an authenticated CLIENT passes with its claims, and any other authenticated user is refused 403 "Forbidden: Client access required" |
| ApiAuth.ClientChainAdmitsOnlyClientTokens | src/middleware/apiAuth.ts:125-128 | the chain admits exactly verified CLIENT tokens from the query or the bearer or body token; the bypass is refused 403 |
| ApiAuth.RoomIdParam | src/middleware/apiAuth.ts:139 | the `roomId` parameter when truthy, else the `id` parameter |
| ApiAuth.AuthorizeRoomAccess | src/middleware/apiAuth.ts:135-174 | 401 exactly without an API user; next exactly for a CLIENT or a found membership; 403 exactly when not found; 500 exactly when the lookup throws |
| ApiAuth.ClientNeedsNoLookup | src/middleware/apiAuth.ts:145-148 | a CLIENT passes whatever the database holds |
| ApiAuth.UserAccessFollowsNamedRoom | src/middleware/apiAuth.ts:150-166 | a user's access depends only on the lookup of the named room and that user |
| ApiAuth.ApiAuthRequest.constructor | src/middleware/apiAuth.ts:6-15 | `req.apiUser` starts unset |
| ApiAuth.ApiAuthRequest.AuthenticateApiToken | src/middleware/apiAuth.ts:20-105 | answers `AuthenticateApiTokenDecision`; `req.apiUser` is set exactly on the way to next |
| ApiAuth.ApiAuthRequest.AuthorizeClientStep | src/middleware/apiAuth.ts:110-119 | answers `AuthorizeClient` on `req.apiUser` and changes nothing |

## Left out

- JSON serialisation and parsing: payloads are abstract values, and a parsed frame is its four fields.
- Asynchronous interleaving: each handler runs as one atomic step. `handleJoinRoom` is not awaited in src/index.ts, so a broadcast can arrive between a join's confirmation and its history; the model does not capture that race.
- Logging (`console.log`/`console.error`) is not modelled.
- Transport delivery: an outbox records what was handed to `ws.send`, not what arrived. A send on a connection that is not yet open throws in the `ws` library, and that throw is not modelled.
- JWT cryptography and expiry: `sign` and `verify` are parameters.
- The database schema: the create and findMany semantics are the assumptions stated above. Which rows a filter object selects, and which non-string values the database rejects, are left to the `ObjectFilter` parameter.
- Store.SortByCreatedAt: orders rows with equal `createdAt` by table order, whereas the database's order among ties is unspecified.
- Tokens.GetToken: a non-string `body.token` (a number, an object) is not modelled, and neither is a missing `req.body`, which would throw.
- ApiAuth.QueryGrant: a `query.token` given more than once (an array) is not modelled.
- Routes, controllers, server setup, CORS, shutdown and the `tryCatch` helper are outside this model.
- `generateToken` and the cookie setters of src/utils/userTokenCookie.ts are not part of this model.
