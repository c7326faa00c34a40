# personal-assistant-backend, modelled in Dafny

This project models the request-handling logic of a Gin/Postgres chat backend. The backend does four things:

- user signup, login and token refresh with JWTs;
- chat and message CRUD scoped to the authenticated user;
- a send-message endpoint that relays an upstream model's completion stream to the client as server-sent events;
- two middlewares: a bearer-token check and a static API-key check.

Collaborators the code calls into are inputs to the model, never implemented. These include:

- the SQL database, row scanning and gin's JSON binding;
- the OpenAI streaming client, bcrypt, and HS256 signing and parsing;
- the process environment.

Each query or call appears as the outcome it returned: a `Result`, a sequence of scanned rows (`None` for a row whose `Scan` failed), a sequence of `Recv` results, or a function such as the signer. Every handler is modelled as the ordered list of side effects it performs together with the reply it writes. Properties are stated over that trace.

Module layout, one module per Go file:

- `ChatSendMessage`: the gate chain of `SendMessage`, history loading (`LoadHistory`, a prepend loop), the upstream context, and the relay loop (`Relay`).
  - Both loops are imperative methods proved against the specification functions `Reverse(Scanned(rows))` and `RelayEffects`/`FullResponse`.
  - `SendMessage` is proved equal to `SendMessageEffects`.
- `ChatGetMessages`, `ChatListChats`, `ChatCreateChat`, `ChatDeleteChat`: the other chat handlers. The two listing handlers keep their row loops as methods.
- `Login`, `Signup`, `Refresh`, `AuthTypes` (types.go): the auth handlers, the request binding rules, and `AuthHandler` with its injected dependencies.
- `Helpers`: the TTL getters, `strconv.Atoi` and the secret guards of `generateJWT`/`parseJWT`.
- `JwtAuth`, `ApiKey`: the middlewares. `GoStrings` models `strings.SplitN(s, " ", 2)` and `strings.EqualFold`.
- `Greet`, `Hello`: the greeting handlers.
- Shared modules:
  - `Wrappers`: Option and Result;
  - `Http`: status codes, replies and middleware verdicts;
  - `Models`: the records of internal/models;
  - `Rows`: the scan filter, reversal and `LIMIT`;
  - `Db`: the statements issued, plus what the owner-scoped `DELETE` and per-user `SELECT` do to a `chats` table.

Two points of `SendMessage`'s order and replies worth knowing:

- **User insert order.** The upstream stream is opened at send_message.go:117 and the user message is inserted after it, at send_message.go:135. So a failed stream open stores nothing (`ChatSendMessage.StreamOpenGate`).
- **History query failure.** A failed history query answers 500 "failed to load chat history" (send_message.go:86), a reply of its own distinct from the ownership query's "db error" (`ChatSendMessage.HistoryGate`): no stream is opened and nothing is inserted.

## Model

| member | source | states |
|---|---|---|
| ChatSendMessage.LoadHistory | internal/handlers/chat/send_message.go:91-100 | prepending each scanned row of the newest-first query yields the scanned rows in chronological (reversed) order; rows that fail to scan are dropped |
| ChatSendMessage.Context | internal/handlers/chat/send_message.go:102-106 | the upstream context is the chronological history followed by exactly one `user` message with the request content; its length is between 1 and the number of rows plus one |
| ChatSendMessage.ContextBounded | internal/handlers/chat/send_message.go:77-84 | with the query's LIMIT 20 the context holds at most 21 messages and at least 1 |
| ChatSendMessage.ContextFromLog | internal/handlers/chat/send_message.go:78-106 | for a chronological message log whose newest 20 all scan, the context is the newest (at most) 20 messages oldest first, then the new user message |
| Rows.LatestFirstReversed | internal/handlers/chat/send_message.go:82-83 | reversing the `ORDER BY created_at DESC LIMIT n` result gives the last n messages of the log in order |
| ChatSendMessage.FirstTerminal | internal/handlers/chat/send_message.go:153-161 | the loop stops at the first `Recv` result that is end-of-stream or an error; every earlier result is a chunk |
| ChatSendMessage.Forwarded | internal/handlers/chat/send_message.go:163-169 | only non-empty first-choice deltas are forwarded |
| ChatSendMessage.Relay | internal/handlers/chat/send_message.go:151-187 | the relay loop produces exactly `RelayEffects` and returns `FullResponse`, and `fullResponse` equals the concatenation of the `message` event payloads it emitted |
| ChatSendMessage.RelayTextIsMessages | internal/handlers/chat/send_message.go:151-178 | the text persisted as the assistant reply is exactly the in-order concatenation of the `message` events sent |
| ChatSendMessage.RelayMessagesAreDeltas | internal/handlers/chat/send_message.go:163-169 | the `message` events carry exactly the non-empty deltas before the end of the stream, one per chunk, in arrival order |
| ChatSendMessage.EmptyChunkIsSilent | internal/handlers/chat/send_message.go:163-169 | a chunk with no choices or an empty delta changes nothing: same events, same persisted text |
| ChatSendMessage.SilentChunkForwardsNothing | internal/handlers/chat/send_message.go:163-165 | removing a chunk with an empty delta leaves the forwarded deltas unchanged |
| ChatSendMessage.ReceiveErrorAborts | internal/handlers/chat/send_message.go:158-161 | a receive error ends the relay with exactly one `error` event carrying the error text: no assistant insert and no `done` |
| ChatSendMessage.EndOfStreamCompletes | internal/handlers/chat/send_message.go:155-186 | end of stream leads to exactly one assistant insert of the accumulated text, then one `done` event with "[DONE]"; the insert's own outcome does not matter |
| ChatSendMessage.SendMessage | internal/handlers/chat/send_message.go:51-188 | the handler's trace (queries, stream open, inserts, replies, events, stream close) is `SendMessageEffects` of the gate outcomes |
| ChatSendMessage.ValidPayload | internal/handlers/chat/send_message.go:56 | the request is accepted only when the body binds and its content is non-empty (a predicate, no contract of its own) |
| ChatSendMessage.SendMessageEffects | internal/handlers/chat/send_message.go:52-188 | the whole gate chain in source order: payload, ownership, history, API key, stream open, user insert, relay; every request ends with closing the stream exactly when the stream was opened, and with its error reply otherwise |
| ChatSendMessage.InvalidPayloadRejected | internal/handlers/chat/send_message.go:55-59 | a missing body or empty content gives 400 "invalid payload" with no query, stream or insert |
| ChatSendMessage.OwnershipGate | internal/handlers/chat/send_message.go:61-75 | an ownership query error gives 500 "db error" with its details; a chat the caller does not own gives 404 "chat not found"; neither reads history nor inserts |
| ChatSendMessage.MissingApiKeyGate | internal/handlers/chat/send_message.go:108-112 | an empty OPENAI_API_KEY gives 500 "missing OPENAI_API_KEY in env", only after the ownership and history queries, with no stream and no insert |
| ChatSendMessage.HistoryGate | internal/handlers/chat/send_message.go:77-88 | in an owned chat a failed history query gives 500 "failed to load chat history" with no details, after the ownership and history queries; no stream is opened and nothing is inserted |
| ChatSendMessage.StreamOpenGate | internal/handlers/chat/send_message.go:114-125 | the stream is opened for "gpt-4o-mini" with the built context; a failure gives 500 "model error" with details and nothing is inserted |
| ChatSendMessage.UserInsertGate | internal/handlers/chat/send_message.go:133-144 | a failed user-message insert gives 500 "failed to save user message", emits no event, and the deferred stream close still runs |
| ChatSendMessage.StreamingPath | internal/handlers/chat/send_message.go:126-188 | on the full path the user message is inserted once, before any event, the relay follows, and the stream is closed last |
| ChatSendMessage.RelayExample | internal/handlers/chat/send_message.go:151-187 | fragments "He" and "llo" then end of stream give `message("He")`, `message("llo")`, an assistant insert of "Hello", then `done` |
| ChatSendMessage.RelayAbortExample | internal/handlers/chat/send_message.go:158-161 | a fragment then a receive error give one `message`, one `error`, and no insert or `done` |
| ChatSendMessage.SingleFragmentRelay | internal/handlers/chat/send_message.go:163-186 | one non-empty fragment then end of stream: one `message`, that fragment persisted as the reply, then `done` |
| ChatSendMessage.EmptyHistoryGates | internal/handlers/chat/send_message.go:61-144 | in an owned chat with no history the stream is opened with the user message alone, and that message is stored after the stream opens |
| ChatSendMessage.FullPathEffects | internal/handlers/chat/send_message.go:61-188 | once every gate passes: ownership query, history query, stream opened with the history plus the user message, user message stored, then the relay and the stream close, in that order |
| ChatSendMessage.SilentInsertForwardsSame | internal/handlers/chat/send_message.go:163-169 | inserting a chunk that carries no text before the terminal item leaves the terminal item and the forwarded fragments unchanged |
| ChatSendMessage.RelayDependsOnForwarded | internal/handlers/chat/send_message.go:151-187 | two streams with the same forwarded fragments and the same terminal item produce the same relay |
| ChatGetMessages.ListMessages | internal/handlers/chat/get_messages.go:22-63 | an ownership error gives 500 "db error"; a chat not owned gives 404 "chat not found" and the messages query is not issued; a messages query error gives 500 "db error"; otherwise 200 with the rows that scanned, in query order |
| Rows.ScannedKeepsOrder | internal/handlers/chat/get_messages.go:47-61 | skipping unscannable rows preserves order: rows sorted by `created_at` stay sorted |
| Rows.ScannedMembers | internal/handlers/chat/get_messages.go:55-61 | a message is in the result exactly when some row scanned to it |
| Rows.Scanned | internal/handlers/chat/get_messages.go:55-61 | the values of the rows whose `Scan` succeeded, in row order, never more than the rows read; the same skip-on-error filter is the history loop of send_message.go:91-100 |
| Rows.ScannedStep | internal/handlers/chat/get_messages.go:56-60 | one more row extends the result by that row when it scans and leaves it unchanged when it does not |
| ChatListChats.ListChats | internal/handlers/chat/list_chats.go:19-44 | only the per-user query is issued; a query error gives 500 "db error"; any row that fails to scan gives 500 "scan error" with no partial list; otherwise 200 with every row, in query order |
| Rows.ScannedWhenAllScan | internal/handlers/chat/list_chats.go:34-42 | when every row scans, the list is the rows one for one |
| ChatListChats.OnlyOwnChatsListed | internal/handlers/chat/list_chats.go:22-27 | the listed chats are exactly the caller's rows of the `chats` table |
| Db.UserChats | internal/handlers/chat/list_chats.go:22-27 | `WHERE user_id = $1` returns a chat for every row of that user and for no other |
| ChatCreateChat.Binds | internal/models/chat.go:12 | the body decodes and its title, when present (`omitempty`), has at most 120 characters (`max=120`) (a predicate, no contract of its own) |
| ChatCreateChat.ResolveTitle | internal/handlers/chat/create_chat.go:25-34 | the title is the request's own when it binds and is non-empty, otherwise "New Chat"; it is never empty and never over 120 characters |
| ChatCreateChat.CreateChat | internal/handlers/chat/create_chat.go:22-52 | the insert carries the caller's id and the resolved title; the status is only 201 or 500 (never 400); a DB error gives 500 "db error" with details; success gives 201 with the inserted chat |
| ChatCreateChat.LongTitleReplaced | internal/models/chat.go:12 | a title over 120 characters is not rejected but replaced by "New Chat" |
| ChatDeleteChat.DeleteChat | internal/handlers/chat/delete_chat.go:20-53 | the DELETE is scoped by chat id and caller; exec and RowsAffected errors give 500 "db error" with details; 0 rows gives 404 "Chat not found"; 200 "Chat deleted" exactly when rows were affected |
| ChatDeleteChat.OnlyOwnerDeletes | internal/handlers/chat/delete_chat.go:24-28 | against a `chats` table, the delete succeeds exactly when the caller owns the chat; a non-owner gets 404 and the table is unchanged; rows not matching both id and owner are kept |
| Db.DeleteOwned | internal/handlers/chat/delete_chat.go:25-28 | the rows kept are exactly those not matching both id and user; the affected count is zero exactly when no row matched |
| Login.Login | internal/handlers/login.go:24-81 | an unbindable body gives 400 with no query; no user row gives 401 "invalid credentials"; another lookup error gives 500 "db error"; a wrong password gives 401; an access-token failure gives 500 "failed to create access token" after three steps; a refresh-token failure after a signed access token gives 500 "failed to create refresh token" after four steps; 200 exactly when lookup, compare and both tokens succeed, with the fetched user and both tokens |
| Login.UnknownEmailLooksLikeWrongPassword | internal/handlers/login.go:45-58 | an unknown email and a wrong password receive the identical reply, and neither issues a token |
| Login.AccessFailureStopsBeforeRefresh | internal/handlers/login.go:61-71 | if the access token fails, the reply is 500 "failed to create access token" and no refresh token is attempted |
| AuthTypes.NewAuthHandler | internal/handlers/types.go:20-28 | the default handler signs and parses with the package-level helpers and uses the TTL getters; both TTLs are positive because the handler is wired to the corrected getters (`Helpers.AccessTTL`, `Helpers.RefreshTTL`), not the written ones |
| AuthTypes.SignupBinds | internal/handlers/types.go:31-37 | first name, last name and a well-formed email are required, the password has 8 to 128 characters, the phone number is optional (a predicate, no contract of its own) |
| AuthTypes.LoginBinds | internal/handlers/types.go:40-43 | a well-formed email and a non-empty password are required (a predicate, no contract of its own) |
| AuthTypes.DefaultHandlerNeedsSecret | internal/handlers/types.go:20-28 | with JWT_SECRET unset the default handler can neither sign nor parse |
| Signup.Signup | internal/handlers/signup.go:26-92 | invalid input gives 400 before hashing; a hash failure gives 500 with no insert; 409 "email already exists" exactly for a Postgres 23505; other insert errors give 500 "db error" with details; after the insert an access-token failure gives 500 "failed to create access token" after three steps, and a refresh-token failure after a signed access token gives 500 "failed to create refresh token" after four steps; 201 exactly when all steps succeed, with the new account and both tokens |
| Signup.NewUser | internal/handlers/signup.go:78-82 | the response user holds the request's names, email and phone and the insert's id and created_at |
| Signup.MissingSecretAfterInsert | internal/handlers/signup.go:44-70 | with JWT_SECRET unset the account is still inserted but the reply is 500 "failed to create access token" |
| Signup.PasswordLengthBounds | internal/handlers/types.go:35 | a password shorter than 8 or longer than 128 characters gives 400 with no step taken |
| Refresh.Refresh | internal/handlers/refresh.go:9-34 | a missing or empty token gives 400 "invalid payload"; any parse failure gives 401 "invalid refresh token"; an access-token failure after a good parse gives 500 "failed to create access token" after the parse and issue steps; 200 exactly when parse and signing succeed, with a token for the claims' user and the submitted refresh token echoed |
| Refresh.RefreshBinds | internal/handlers/refresh.go:10-16 | the body decodes and carries a non-empty `refresh_token` (`binding:"required"`) (a predicate, no contract of its own) |
| Refresh.MissingSecretIsUnauthorized | internal/handlers/refresh.go:18-22 | with JWT_SECRET unset a refresh is answered 401, not 500 |
| Refresh.RefreshIsRepeatable | internal/handlers/refresh.go:30-33 | the refresh token is never rotated: refreshing with the echoed token gives the same result |
| Helpers.Atoi | internal/handlers/helpers.go:58 | `strconv.Atoi` accepts an optional sign and at least one digit with a value in the 64-bit range |
| Helpers.AtoiItoa | internal/handlers/helpers.go:58 | parsing the decimal form of any 64-bit integer gives it back |
| Helpers.WrapInt64 | internal/handlers/helpers.go:62 | an int64 product is congruent to the exact product modulo 2^64 and in range |
| Helpers.AccessTTLAsWritten | internal/handlers/helpers.go:53-63 | `getAccessTTL` as written: 15 minutes by default, otherwise the wrapped int64 product of the minutes and one minute |
| Helpers.AccessTTLOverflows | internal/handlers/helpers.go:62 | ACCESS_TTL_MINUTES=153722868 gives a negative access TTL as written |
| Helpers.RefreshTTLAsWritten | internal/handlers/helpers.go:66-76 | `getRefreshTTL` as written: 30 days by default, otherwise the wrapped int64 product of the days, 24 and one hour |
| Helpers.RefreshTTLOverflows | internal/handlers/helpers.go:75 | REFRESH_TTL_DAYS=106752 gives a negative refresh TTL as written |
| Helpers.AccessWrapsWhenParsed | internal/handlers/helpers.go:53-63 | any minute count that parses and whose nanosecond product lands past the largest int64 (below 2^64) gives a negative access TTL as written |
| Helpers.RefreshWrapsWhenParsed | internal/handlers/helpers.go:66-76 | any day count that parses, whose hour product fits and whose nanosecond product lands past the largest int64 gives a negative refresh TTL as written |
| Helpers.AccessTTL | internal/handlers/helpers.go:53-63 | always positive; exactly n minutes for a decimal n in 1..153722867; 15 minutes for empty, non-numeric, non-positive or too-large values |
| Helpers.RefreshTTL | internal/handlers/helpers.go:66-76 | always positive; exactly n days for a decimal n in 1..106751; 30 days otherwise |
| Helpers.AccessTTLExact | internal/handlers/helpers.go:62 | a minute count from 1 to 153722867 (the largest whose duration fits in int64) written in decimal is taken exactly |
| Helpers.RefreshTTLExact | internal/handlers/helpers.go:75 | a day count from 1 to 106751 (the largest whose duration fits in int64) written in decimal is taken exactly |
| Helpers.AccessTTLAgreesInRange | internal/handlers/helpers.go:53-63 | for every setting, whether unset, unparsable, zero or negative, or any spelling `Atoi` accepts ("+15", "015"), whose value is at most 153722867, the corrected access TTL equals the written one: the correction changes only overflowing counts |
| Helpers.RefreshTTLAgreesInRange | internal/handlers/helpers.go:66-76 | for every setting whose value is at most 106751 (or that does not parse), the corrected refresh TTL equals the written one |
| Helpers.GenerateJWT | internal/handlers/helpers.go:13-30 | an empty JWT_SECRET fails with "JWT_SECRET not set" before signing; otherwise the signer's result |
| Helpers.ParseJWT | internal/handlers/helpers.go:33-50 | an empty JWT_SECRET fails with "JWT_SECRET not set" before parsing; success exactly when the token parses, is valid and has the expected claims, returning those claims |
| GoStrings.FirstSpace | internal/middleware/jwt_auth.go:26 | the position of the first space, or none when there is no space |
| GoStrings.SplitFirstSpace | internal/middleware/jwt_auth.go:26 | `SplitN(s, " ", 2)`: one part (the whole string) when there is no space, otherwise the space-free head and everything after it, which rejoin to the input |
| GoStrings.SplitJoin | internal/middleware/jwt_auth.go:26 | splitting `head + " " + tail` with a space-free head gives back head and tail |
| GoStrings.EqualFoldAscii | internal/middleware/jwt_auth.go:27 | `strings.EqualFold(w, "Bearer")` as ASCII case folding; exact for "bearer", whose letters no non-ASCII character folds onto (only the Kelvin sign U+212A folds onto `k` and the long s U+017F onto `s`); Unicode folding in general is not modelled (a predicate, no contract of its own) |
| JwtAuth.BearerToken | internal/middleware/jwt_auth.go:26-34 | a token is found exactly when the part before the first space equals "Bearer" ignoring case; the header is that scheme, a space, and the token |
| JwtAuth.JWTAuth | internal/middleware/jwt_auth.go:15-76 | an empty header gives 401 "authorization header required"; a malformed one 401 "invalid authorization header"; then an empty secret gives 500 "server misconfigured"; a parse error or invalid token gives 401 "invalid or expired token"; missing claims 401 "invalid token claims"; the request proceeds, storing the claims' user id, exactly when all checks pass |
| JwtAuth.TokenIsRestOfHeader | internal/middleware/jwt_auth.go:26-34 | the token is everything after the first space, spaces included and possibly empty, with the scheme in any case |
| JwtAuth.AgreesWithParseJWT | internal/middleware/jwt_auth.go:35-67 | the middleware admits a bearer token exactly when the handlers' `parseJWT` accepts it, and stores the same user id |
| JwtAuth.BareTokenRefused | internal/middleware/jwt_auth.go:26-32 | a non-empty header without a space is refused as malformed, before the secret is consulted |
| JwtAuth.MixedCaseSchemeAccepted | internal/middleware/jwt_auth.go:27 | "bEaReR <token>" is accepted as a bearer header |
| ApiKey.APIKeyAuth | internal/middleware/apikey.go:9-18 | the request proceeds exactly when the header is non-empty and equals the configured key; otherwise 401 "invalid API key" |
| ApiKey.EmptyKeyRejectsAll | internal/middleware/apikey.go:12 | with an empty configured key every request is rejected |
| ApiKey.OnlyConfiguredKeyAdmitted | internal/middleware/apikey.go:12-16 | a non-empty configured key is admitted and is the only key admitted |
| Greet.Greet | internal/handlers/greet.go:20-34 | 200 exactly when both names are non-empty, else 400 "Missing first or last name"; the message is "Hello, " then the first name, a space, and the last name |
| Greet.GreetingNamesRecovered | internal/handlers/greet.go:31-33 | a first name without spaces and any last name can be read back from the greeting |
| Hello.Hello | internal/handlers/hello.go:9-18 | always 200; the message is "Hello, " + name + "!" where an empty name becomes "World" and any other name is kept unchanged |
| Hello.GreetingDeterminesName | internal/handlers/hello.go:10-16 | two names get the same greeting only when they are equal or are "" and "World" |

## Left out

- Databases, binding, streaming and crypto are inputs, not models. SQL execution, row scanning, gin's JSON decoding, the validator's error texts, the `email` format rule, bcrypt, HS256 signing and JWT parsing are foreign libraries. Their outcomes are inputs, and the validator's error text is the opaque `bindError`.
- SSE wire framing, response headers (send_message.go:129-131) and gin's JSON serialisation are not modelled. This includes a nil slice serialising as `null`, e.g. `{"chats": null}` for a user with no chats.
- The OpenAI client factory, its HTTP transport and `context.Background()` (send_message.go:18-34, 114-115) are not modelled. The stream is the sequence of its `Recv` results.
- ChatSendMessage.Relay: the stream is assumed to end (`Terminates`: some `Recv` returns end-of-stream or an error). A stream that never ends, the unbounded client timeout and client disconnects are concurrency and timing concerns.
- ChatSendMessage.SendMessage: the assistant insert's outcome is ignored by the code (send_message.go:180-184), so it is not an input. The inserted ids and timestamps (`time.Now`), and `rows.Close` are not modelled.
- Helpers.GenerateJWT: the token's `ExpiresAt`/`IssuedAt` come from `time.Now`, which is not modelled. The claims and expiry are passed to the signer as the user id and the TTL.
- The TTL getters read the environment on each call. The model takes the environment as a value (`AuthTypes.Env`), so one request sees one environment.
- GoStrings.EqualFoldAscii: `strings.EqualFold` is modelled by ASCII case folding. Unicode simple folding (such as `k` with the Kelvin sign U+212A) is not modelled; it cannot change the one comparison the code makes, against "Bearer".
- Atoi models Go's 64-bit `int`. On a 32-bit platform `strconv.Atoi` has a narrower range.
- The handlers use `Helpers.AccessTTL`/`Helpers.RefreshTTL`, the corrected TTLs of the Findings section. The written getters remain as `AccessTTLAsWritten`/`RefreshTTLAsWritten`.
- The chat handlers read the caller from the context key "userID", while jwt_auth.go:72 stores "user_id". This is wiring between files; the model takes the caller's id as a handler input.
- internal/handlers/auth.go (a stale duplicate of types.go and signup.go), me.go, test.go, main.go and internal/config are not part of this model.
- internal/handlers/chat/send_message_test.go exercises a non-streaming `CreateChatCompletion` call that send_message.go does not make; it is not part of this model.
- JwtAuth.JWTAuth: the `log.Println`/`log.Printf` side effects in jwt_auth.go are not modelled.
- Db.UserChats: the `ORDER BY created_at DESC` of list_chats.go:26 is not modelled; the function lists the caller's rows in table order, and only membership is proved.

## Findings

| source | as written | input that shows it | evidently intended | confidence | as-written member | corrected member |
|---|---|---|---|---|---|---|
| internal/handlers/helpers.go:62 | `time.Duration(min) * time.Minute` multiplies in int64 nanoseconds and wraps around for large minute counts | ACCESS_TTL_MINUTES=153722868 gives a negative TTL, so every access token is issued already expired | a positive TTL: a count whose duration does not fit falls back to the 15-minute default | not executed | Helpers.AccessTTLOverflows | Helpers.AccessTTL |
| internal/handlers/helpers.go:75 | `time.Duration(days) * 24 * time.Hour` multiplies in int64 nanoseconds and wraps around for large day counts | REFRESH_TTL_DAYS=106752 gives a negative TTL, so every refresh token is issued already expired | a positive TTL: a count whose duration does not fit falls back to the 30-day default | not executed | Helpers.RefreshTTLOverflows | Helpers.RefreshTTL |
