# WoodAIChat core, modelled in Dafny

WoodAIChat is a chat application. A Django REST backend relays a user's
message to an upstream model service through the Responses API and streams
the reply back as server-sent events. It stores sessions and messages, and
it manages accounts with an email-verification flow kept in a key-value
store with expiry. A Vue/Pinia frontend keeps the session list, the message
list and the reply being streamed.

This project models:

- **The streaming relay.**
  - `Translator`: the event loop of `generate_response_response`. It folds upstream events into the `ai_content` buffers and the normalised chunks.
  - `ChatChunks`: the chunk builders `Choice.to_dict` and `create_chat_chunk`.
  - `Sse`: the framing loop of `SSEGenerator.__iter__`, which uses the event-stream format of section 9.2 of the WHATWG HTML Living Standard.
  - `Relay`: the whole generator. This covers the early failures outside the `try`, `message_start`, the `finally` save with serializer validation, and `message_end`.
- **The chat endpoints and schema.**
  - `ChatViews`: `create`, `ai_response` and the owner-scoped querysets, over the tables of `ChatModels`.
  - `ChatModels`: the rows, the cascade and set-null delete rules, the default orderings and the `__str__` texts.
- **Accounts.**
  - `TtlStore`: the key-value store with expiry.
  - `Verification`: `email_code` and `email_verify`.
  - `UserSerializers`: `ver_email`, `validate_avatar`, `UserSerializer.validate`/`create` and `PasswordChangeSerializer`.
  - `UserModels`: the upload path and `User.save`.
  - `UserViews`: `login`, soft delete, `update`, `update_avatar` and `update_password`.
  - `DrfFields`: the DRF `CharField` checks that the serializers rely on.
- **Shared backend helpers.** `Responses`: the `StandardResponse` envelope and `custom_exception_handler`.
- **Frontend.**
  - `ChatStore`: store/chat.ts.
  - `AuthStore`: store/auth.ts.
  - `DateRange`: `getDateRange` of utils/fun.ts.

Code that changes state step by step is modelled as imperative Dafny. This covers:

- the Pinia stores (`ChatStore.Store`, `AuthStore.Auth`);
- the Redis connection (`TtlStore.Store`);
- a loaded Django user (`UserModels.User`);
- the view classes (`ChatViews.ChatMessageView`, `Verification.EmailVerifyView`);
- the loops (`Translator.TranslateEvents`, `Sse.FrameStream`, `Relay.RunRelay`, `Responses.StandardResponse`, `UserSerializers.TranslateMessages`).

Each method is proved equal to a specification function. The properties are then proved about that function.

Everything outside the process is a parameter:

- the upstream model service: an oracle from the request configuration to what the stream does;
- clocks and timestamps;
- uuids and generated codes;
- password hashing and checking;
- `authenticate` and the token issuer;
- Django's e-mail address check;
- the mailer's outcome;
- the serializer renderings of sessions and models.

Where the code does something other than what its own comments or evident intent say, the model follows the code:

- **An aborted stream.** The `finally` block of `ai_response` is headed by the comment 保存AI回复消息, "save the AI reply message" (chat/views.py:257), so every reply, even one cut short, looks meant to be stored. In the code, the response id is captured from the `response.created` event before any text arrives, but a reply with blank content fails serializer validation in that block, so it is not stored (`Relay.StoredReply`).
- **An unknown `model_id` in `create`.** It answers 404 only after a new session has been saved, so an empty session is left behind (`ChatViews.CreateUnknownModel`).
- **The `changePwd` query parameter.** It reaches `email_code` as a string. The frontend sends `"false"`, which is truthy, so the "address already taken" check never runs for requests from this client (`Verification.ChangePwdSkipsTakenCheck`, `AuthStore.ClientFlagAlwaysTruthy`).
- **`new_password` in `UserSerializer.validate`.** It is not a declared field, so it never reaches `validate`'s attributes. The confirm-password checks never fire through the serializer (`UserSerializers.NewPasswordNeverValidated`).
- **`update` with `newPassword`.** It calls `set_password` before validation, so `old_password` is checked against the new password (`UserViews.UpdateChecksOldAgainstNew`). A `password` attribute is then assigned unhashed (`UserViews.RawPasswordAttribute`).
- **`update_avatar`.** It saves the file without running `validate_avatar` (`UserViews.AvatarUncheckedOnUpdate`).
- **`parent_message` in `create`.** It is only looked up by key, as the primary-key field of `ChatMessageSerializer` does. Nothing checks that the parent lies in the same session or belongs to the caller. A user can name another user's message as the parent. `ai_response` then sends that message's response id as `previous_response_id`, so the upstream conversation of the other user is continued (`ChatViews.ForeignParentAccepted`).
- **The stored reply.** The `finally` save of `ai_response` inserts the assistant message and saves nothing else. Unlike `create`, it leaves the session's `updated_at` alone, so the session list is ordered by the last user message, not the last reply (`ChatViews.AiResponseKeepsIntegrity`).
- **`newPassword` in a JSON body.** `CamelCaseJSONParser` turns the JSON key `newPassword` into `new_password`. `update` reads `request.data.get("newPassword")`, so it finds the key only in multipart or form bodies. Its early `set_password`, and with it `UserViews.UpdateChecksOldAgainstNew`, applies to those bodies only; the model takes the parsed body as given.
- **The verification keys.** The code key of the address `verified_<e>` is the flag key of `<e>` (`Verification.KeysCollide`).

## Model

| member | source | states |
|---|---|---|
| ChatChunks.ChoiceToDict | wood_ai_chat_backend/chat/views.py:44-64 | a choice dict has keys `index`, `delta`, then `finish_reason` exactly when it is truthy; `index`, `delta` and `finish_reason` carry the choice's values |
| ChatChunks.DeltaShape | wood_ai_chat_backend/chat/views.py:48-58 | the delta always holds `role` and `content`, and `reasoning_content` exactly when the reasoning is non-empty, with that text |
| ChatChunks.CreateChatChunk | wood_ai_chat_backend/chat/views.py:76-107 | a chunk has five keys, or six when the usage is truthy |
| ChatChunks.ChunkKeys | wood_ai_chat_backend/chat/views.py:96-105 | the key order is id, choices, created, model, object, then `usage` only for truthy usage (0 omitted) |
| ChatChunks.ChunkFields | wood_ai_chat_backend/chat/views.py:96-102 | each fixed key carries the argument of that name |
| ChatChunks.ChunkUsage | wood_ai_chat_backend/chat/views.py:104-105 | `usage` holds the usage exactly when it is truthy, and is absent otherwise |
| Sse.Bodies | wood_ai_chat_backend/chat/views.py:113-125 | one body per payload, plus one error body exactly when the generator raised |
| Sse.FrameStream | wood_ai_chat_backend/chat/views.py:109-125 | the framing loop yields, in order, `data: <body>\n\n` per payload (compact JSON for a dict, `str()` otherwise), then one `{"error": ...}` frame when the generator raised, and nothing else |
| Sse.FrameAt | wood_ai_chat_backend/chat/views.py:114-121 | the frame at a payload's position is that payload's frame |
| Sse.ErrorFrameText | wood_ai_chat_backend/chat/views.py:122-125 | the error frame reads `data: {"error": "<message>"}` with the default separators (space after the colon) |
| Sse.LineEnd | wood_ai_chat_backend/chat/views.py:118 | the first line feed of a text, or its length: no earlier character is a line feed |
| Sse.ConcatFrames | wood_ai_chat_backend/chat/views.py:114-121 | concatenated frames are the wire text of their bodies |
| Sse.LineEndOf | wood_ai_chat_backend/chat/views.py:118 | a frame body with no line feed ends where its frame's blank line starts |
| Sse.ParseOne | wood_ai_chat_backend/chat/views.py:118 | an event-stream reader reads one frame back as its body and continues after it |
| Sse.ParseWire | wood_ai_chat_backend/chat/views.py:114-121 | frames whose bodies hold no line feed read back as exactly those bodies, in order |
| Sse.StreamRoundTrip | wood_ai_chat_backend/chat/views.py:109-125 | when every payload is a dict, reading the stream back gives each payload's compact JSON, then the error body if any |
| JsonValues.DumpsPrintable | wood_ai_chat_backend/chat/views.py:118 | `json.dumps` output (with `ensure_ascii`) is printable ASCII, so it holds no line break and a JSON frame body cannot end an event early |
| JsonValues.DumpsSingleField | wood_ai_chat_backend/chat/views.py:124-125 | the text of a one-key dict with default separators is `{"key": value}` |
| JsonValues.SetKeyLookup | wood_ai_chat_backend/chat/views.py:58 | assigning a key makes it read as the new value and leaves every other key as it was |
| Translator.TranslateEvents | wood_ai_chat_backend/chat/views.py:210-255 | the event loop's buffers and yielded chunks are those of the fold `Translate` over the events |
| Translator.StepYield | wood_ai_chat_backend/chat/views.py:212-255 | what one event yields does not depend on the buffers: one chunk for a reasoning delta, an output delta or a completed event, none for created events (captured or not) or untyped events |
| Translator.OutputTextSnoc | wood_ai_chat_backend/chat/views.py:235-236 | one more event extends the output text by its delta exactly when it is an output delta |
| Translator.ReasoningTextSnoc | wood_ai_chat_backend/chat/views.py:221-222 | one more event extends the reasoning by its delta exactly when it is a reasoning delta |
| Translator.FirstResponseIdSnoc | wood_ai_chat_backend/chat/views.py:214-219 | the captured id changes only while it is still empty and only by a created event |
| Translator.AllChunksSnoc | wood_ai_chat_backend/chat/views.py:211-255 | one more event appends exactly its own chunks |
| Translator.TranslateBuffers | wood_ai_chat_backend/chat/views.py:162-249 | the final buffers are the in-order concatenation of the reasoning deltas, that of the output deltas, the last completed total (0 if none), and the first non-empty created id, which is never overwritten |
| Translator.TranslateChunks | wood_ai_chat_backend/chat/views.py:211-255 | the yielded chunks are each event's own chunks, in arrival order |
| Translator.AllChunksAppend | wood_ai_chat_backend/chat/views.py:211-255 | the chunks of a concatenation of streams are the concatenation of their chunks |
| Translator.AllChunksCount | wood_ai_chat_backend/chat/views.py:211-255 | there is one chunk per delta or completed event; a completed event does not stop the loop |
| Translator.SingleChoiceChunk | wood_ai_chat_backend/chat/views.py:224-246 | a chunk of one assistant choice at index 0, with no finish reason and one empty channel, is well formed |
| Translator.ReasoningChunkShape | wood_ai_chat_backend/chat/views.py:221-234 | a reasoning chunk is well formed, has content "" and carries the delta as `reasoning_content` |
| Translator.ContentChunkShape | wood_ai_chat_backend/chat/views.py:235-246 | an output chunk is well formed, carries the delta as content and has no `reasoning_content` |
| Translator.UsageChunkShape | wood_ai_chat_backend/chat/views.py:248-255 | a completed chunk has empty choices, the response id as id, and `usage` exactly when the total is non-zero |
| Translator.AllChunksWellFormed | wood_ai_chat_backend/chat/views.py:211-255 | every chunk carries one channel and the same `created` stamp, because the default argument is evaluated once |
| Relay.ThinkModeCases | wood_ai_chat_backend/chat/views.py:152 | `think[think_type]` succeeds exactly for integers -3..2 (negative ones counting from the end), and the default 1 picks "enabled" |
| Relay.ResponseConfigKeys | wood_ai_chat_backend/chat/views.py:147-156 | the request has model, input, stream, extra_body, then `previous_response_id` exactly when a non-empty one is given |
| Relay.ResponseConfigShape | wood_ai_chat_backend/chat/views.py:147-156 | the request always streams, and continues an earlier response exactly when the id is non-empty |
| Relay.SaveReplyCases | wood_ai_chat_backend/chat/views.py:258-273 | the reply is stored exactly when the content is not blank, the texts hold no NUL and a captured id fits in 100 characters |
| Relay.SaveReplyRow | wood_ai_chat_backend/chat/views.py:258-273 | a stored reply is an assistant message in the session, with the model, under the user's message, with stripped texts, the tokens, and the id only when one was captured |
| Relay.ChunkPayloads | wood_ai_chat_backend/chat/views.py:114-118 | every chunk is framed as a dict payload holding that chunk, in order |
| Relay.Streamed | wood_ai_chat_backend/chat/views.py:170-255 | `message_start` comes first, then one payload per chunk of the loop |
| Relay.RunRelay | wood_ai_chat_backend/chat/views.py:143-286 | the generator's payloads, failure and stored row are those of `RelayRun` |
| Relay.EarlyFailure | wood_ai_chat_backend/chat/views.py:152-159 | a message with no model, a bad think index or a refused upstream call gives exactly one error frame, no `message_start`, and stores nothing |
| Relay.OpenedPayloads | wood_ai_chat_backend/chat/views.py:208-286 | once the stream is open, the streamed payloads are a prefix of the output |
| Relay.StreamOrder | wood_ai_chat_backend/chat/views.py:170-255 | the first frame is `message_start`'s compact JSON, and the next frames are those of every chunk of the loop, unchanged and in arrival order |
| Relay.StoredReply | wood_ai_chat_backend/chat/views.py:256-286 | whether the stream finished or broke, one reply is stored exactly when it validates, holding the stripped concatenated deltas, the last total or 0 and the first captured id; a stored reply is announced by a last `message_end` payload, followed by the stream's error if it broke; a refused save ends the stream with the validation error instead |
| Relay.OutputTextPrefix | wood_ai_chat_backend/chat/views.py:235-236 | a stream cut short has accumulated a prefix of the full stream's content |
| Relay.HiThereBuffers | wood_ai_chat_backend/chat/views.py:211-249 | created r1, "Hi", " there", completed 42 accumulate content "Hi there", 42 tokens and id r1 |
| Relay.HiThereChunks | wood_ai_chat_backend/chat/views.py:211-255 | the same events yield two content chunks and one usage chunk |
| Relay.SavePlainReply | wood_ai_chat_backend/chat/views.py:258-273 | a clean reply with no reasoning is stored with content, tokens and id unchanged |
| Relay.HiThereSave | wood_ai_chat_backend/chat/views.py:258-273 | the worked reply validates and is stored as "Hi there", 42, r1 |
| Relay.HiThereStored | wood_ai_chat_backend/chat/views.py:143-286 | the worked relay ends without error, stores the reply, and its fifth and last payload is `message_end` of that row |
| Relay.HiThereStreamed | wood_ai_chat_backend/chat/views.py:208-255 | the worked relay streams `message_start`, the two content chunks and the usage chunk, in that order |
| ChatModels.RoleRoundTrip | wood_ai_chat_backend/chat/models.py:47-56 | roles round-trip through their stored values, and only "user", "assistant" and "system" are roles |
| ChatModels.InsertSessionKeepsIntegrity | wood_ai_chat_backend/chat/models.py:5-12 | saving a session of an existing user keeps every foreign key valid, and the new key was free |
| ChatModels.InsertMessageKeepsIntegrity | wood_ai_chat_backend/chat/models.py:53-86 | saving a message whose keys exist keeps the tables consistent, and the new key was free |
| ChatModels.TouchSessionKeepsIntegrity | wood_ai_chat_backend/chat/models.py:11 | updating a session's `updated_at` keeps the tables consistent |
| ChatModels.RemoveMessagesSurvivors | wood_ai_chat_backend/chat/models.py:72-79 | exactly the messages outside the deleted set survive, each unchanged except that a deleted parent becomes null |
| ChatModels.DeleteMessageKeepsIntegrity | wood_ai_chat_backend/chat/models.py:72-79 | deleting a message keeps its children, with no parent, and keeps the tables consistent |
| ChatModels.DeleteSessionKeepsIntegrity | wood_ai_chat_backend/chat/models.py:53-55 | deleting a session deletes exactly its messages (cascade) and keeps the tables consistent |
| ChatModels.DeleteUserKeepsIntegrity | wood_ai_chat_backend/chat/models.py:9 | deleting a user deletes exactly their sessions and those sessions' messages |
| ChatModels.DeleteModelKeepsIntegrity | wood_ai_chat_backend/chat/models.py:63-69 | deleting a model keeps every message; only its messages lose their model |
| ChatModels.ConsOldestFirst | wood_ai_chat_backend/chat/models.py:92 | a message no later than an ordered list's head extends it in order |
| ChatModels.InsertByCreated | wood_ai_chat_backend/chat/models.py:92 | inserting lengthens the list by one and puts the new message or the old head first |
| ChatModels.InsertByCreatedSorted | wood_ai_chat_backend/chat/models.py:92 | inserting into a list ordered by `created_at` keeps it ordered |
| ChatModels.InsertByCreatedPerm | wood_ai_chat_backend/chat/models.py:92 | inserting adds exactly the new message |
| ChatModels.OrderMessagesFacts | wood_ai_chat_backend/chat/models.py:92 | the message ordering is a permutation that is oldest first |
| ChatModels.ConsRecentFirst | wood_ai_chat_backend/chat/models.py:18 | a session no older than an ordered list's head extends it in order |
| ChatModels.InsertByUpdated | wood_ai_chat_backend/chat/models.py:18 | inserting lengthens the list by one and puts the new session or the old head first |
| ChatModels.InsertByUpdatedSorted | wood_ai_chat_backend/chat/models.py:18 | inserting into a list ordered by descending `updated_at` keeps it ordered |
| ChatModels.InsertByUpdatedPerm | wood_ai_chat_backend/chat/models.py:18 | inserting adds exactly the new session |
| ChatModels.OrderSessionsFacts | wood_ai_chat_backend/chat/models.py:18 | the session ordering is a permutation that is most recently updated first |
| ChatModels.MessageText | wood_ai_chat_backend/chat/models.py:94-95 | `__str__` is the title, " - ", the role, ": ", the first 50 characters of the content, and then "...", even when the content is shorter |
| ChatModels.SessionText | wood_ai_chat_backend/chat/models.py:20-21 | `__str__` is the username, " - ", and then the title |
| ChatViews.TitleOf | wood_ai_chat_backend/chat/views.py:382 | the title is the first min(20, length) characters of the content |
| ChatViews.FindModelUnique | wood_ai_chat_backend/chat/views.py:401 | with unique model ids, the lookup finds the row with that id |
| ChatViews.SessionTitleCases | wood_ai_chat_backend/chat/views.py:380-387 | a title is refused exactly when its first 20 characters are blank or hold NUL, never for length; a kept title is stripped |
| ChatViews.AddUserMessageFacts | wood_ai_chat_backend/chat/views.py:400-418 | only an unknown model or refused fields write nothing; a stored message is a user message with stripped content, the model and parent asked for, 0 tokens, no response id, and its session's `updated_at` becomes now |
| ChatViews.AddUserMessageSessions | wood_ai_chat_backend/chat/views.py:418 | storing a message changes no session except its own `updated_at` |
| ChatViews.AddUserMessageKeepsIntegrity | wood_ai_chat_backend/chat/views.py:405-418 | storing a user message keeps the tables consistent and leaves users and models alone |
| ChatViews.CreateKeepsIntegrity | wood_ai_chat_backend/chat/views.py:369-425 | `create` keeps the tables consistent and changes neither users nor models |
| ChatViews.CreateStoresUserMessage | wood_ai_chat_backend/chat/views.py:369-425 | a created message is stored only in one of the caller's sessions, as a user message with the stripped content and the model asked for |
| ChatViews.AddUserMessageRow | wood_ai_chat_backend/chat/views.py:405-418 | a stored user message holds the stripped content and the model's row, and its session keeps its owner |
| ChatViews.CreateTitleRejected | wood_ai_chat_backend/chat/views.py:386-387 | with no session id, a refused title answers 400 with the serializer's error and writes nothing |
| ChatViews.CreateNewSession | wood_ai_chat_backend/chat/views.py:379-388 | with no session id, the caller gets a new session under the next key, titled with the stripped first 20 characters |
| ChatViews.CreateNewSessionMessage | wood_ai_chat_backend/chat/views.py:379-415 | a message created without a session id goes into the new session with no parent, whatever parent was asked for |
| ChatViews.CreateForeignSession | wood_ai_chat_backend/chat/views.py:391-397 | a session id that is not the caller's answers 404 and writes nothing |
| ChatViews.CreateUnknownModel | wood_ai_chat_backend/chat/views.py:379-403 | an unknown model answers 404 and stores no message, but leaves a new, empty session |
| ChatViews.UnknownModelWritesNothing | wood_ai_chat_backend/chat/views.py:400-403 | the model lookup failing writes nothing |
| ChatViews.NextSessionEmpty | wood_ai_chat_backend/chat/models.py:53-55 | in consistent tables, no message belongs to the next session key |
| ChatViews.MessageErrorsOrder | wood_ai_chat_backend/chat/views.py:405-414 | a message is refused exactly when the content fails or the parent is missing, with the content error listed first |
| ChatViews.AiResponseOwner | wood_ai_chat_backend/chat/views.py:438-443 | only a user message in one of the caller's sessions is answered; anything else is 404 with nothing written |
| ChatViews.PreviousResponseIdCases | wood_ai_chat_backend/chat/views.py:448-453 | the continuation id is the parent's response id exactly when the parent exists and that id is non-empty |
| ChatViews.AiResponseKeepsIntegrity | wood_ai_chat_backend/chat/views.py:427-464 | the relay stores at most one message, the assistant reply under the user's message in its session with its model, and keeps the tables consistent |
| ChatViews.ForeignParentAccepted | wood_ai_chat_backend/chat/views.py:369-453 | a parent message from another user's session is accepted, stored as the new message's parent, and its response id becomes the continuation id of the new message |
| ChatViews.Continuation | wood_ai_chat_backend/chat/views.py:448-453 | a message written under a reply that kept response id r is relayed with `previous_response_id` r |
| ChatViews.StoredResponseId | wood_ai_chat_backend/chat/views.py:214-269 | a stored reply keeps the first non-empty created id of its stream, stripped |
| ChatViews.OwnerIsolation | wood_ai_chat_backend/chat/views.py:288-300 | two users' visible sessions and messages are disjoint; a session filter gives exactly that session's messages when it is the caller's, and nothing otherwise |
| ChatViews.ChatMessageView.constructor | wood_ai_chat_backend/chat/views.py:128-140 | the view holds consistent tables |
| ChatViews.ChatMessageView.Create | wood_ai_chat_backend/chat/views.py:369-425 | the tables and the answer after `create` are those of `CreateSpec`, and stay consistent |
| ChatViews.ChatMessageView.AddMessage | wood_ai_chat_backend/chat/views.py:400-425 | the model lookup, serializer, save and session touch give the answer and tables of `AddUserMessage` |
| ChatViews.ChatMessageView.AiResponse | wood_ai_chat_backend/chat/views.py:427-464 | the frames and tables after `ai_response` are those of `AiResponseSpec`, and stay consistent |
| ChatStore.SessionIndex | wood_ai_chat_frontend/src/store/chat.ts:32 | `findIndex` gives the first position with the id, or -1 when none has it |
| ChatStore.MessageIndex | wood_ai_chat_frontend/src/store/chat.ts:59 | the same search over messages |
| ChatStore.LastAssistantIndex | wood_ai_chat_frontend/src/store/chat.ts:100-113 | the highest position with role assistant, or -1 when there is none |
| ChatStore.UpdateSessionEffect | wood_ai_chat_frontend/src/store/chat.ts:31-36 | the patch is merged into the first entry with its id; every other entry and the length are unchanged; an unknown id changes nothing |
| ChatStore.DeleteSessionEffect | wood_ai_chat_frontend/src/store/chat.ts:37-42 | exactly the first entry with the id is removed, with the order of the rest kept; an unknown id changes nothing |
| ChatStore.TouchSessionEffect | wood_ai_chat_frontend/src/store/chat.ts:43-50 | a falsy id (0 included) or an unknown one changes nothing; otherwise only that entry's `updatedAt` changes |
| ChatStore.AddMessageEffect | wood_ai_chat_frontend/src/store/chat.ts:57-67 | an existing id is replaced in place (same length and positions); otherwise the message is appended; unique ids stay unique |
| ChatStore.UpdateTempEffect | wood_ai_chat_frontend/src/store/chat.ts:70-83 | `isFirst` replaces the temporary message; otherwise a non-empty reasoning is appended, else a non-empty content, never both; with no temporary message nothing happens |
| ChatStore.DeltasAccumulate | wood_ai_chat_frontend/src/store/chat.ts:70-83 | feeding one-channel chunks builds each buffer as the concatenation of its own deltas |
| ChatStore.SessionIndexIs | wood_ai_chat_frontend/src/store/chat.ts:32 | a position with the first-match property is the one `findIndex` returns |
| ChatStore.MessageIndexIs | wood_ai_chat_frontend/src/store/chat.ts:59 | a position with the first-match property is the one `findIndex` returns |
| ChatStore.LastAssistantIs | wood_ai_chat_frontend/src/store/chat.ts:102-106 | a position with the last-assistant property is the one the scan returns |
| ChatStore.Store.constructor | wood_ai_chat_frontend/src/store/chat.ts:15-21 | empty lists, no active session, no temporary message |
| ChatStore.Store.FindSession | wood_ai_chat_frontend/src/store/chat.ts:32 | the scan returns `SessionIndex` |
| ChatStore.Store.FindMessage | wood_ai_chat_frontend/src/store/chat.ts:59 | the scan returns `MessageIndex` |
| ChatStore.Store.SetSessionList | wood_ai_chat_frontend/src/store/chat.ts:24-26 | replaces the session list and nothing else |
| ChatStore.Store.AddSession | wood_ai_chat_frontend/src/store/chat.ts:27-29 | prepends: the old list becomes the tail; nothing else changes |
| ChatStore.Store.UpdateSession | wood_ai_chat_frontend/src/store/chat.ts:31-36 | the session list becomes `UpdatedSessions`; nothing else changes |
| ChatStore.Store.DeleteSession | wood_ai_chat_frontend/src/store/chat.ts:37-42 | the session list becomes `DeletedSessions`; nothing else changes |
| ChatStore.Store.UpdateSessionTime | wood_ai_chat_frontend/src/store/chat.ts:43-50 | the session list becomes `TouchedSessions`; nothing else changes |
| ChatStore.Store.SetMessageList | wood_ai_chat_frontend/src/store/chat.ts:53-55 | replaces the message list and nothing else |
| ChatStore.Store.AddMessage | wood_ai_chat_frontend/src/store/chat.ts:57-67 | the message list becomes `AddedMessages`; nothing else changes |
| ChatStore.Store.UpdateTempMessage | wood_ai_chat_frontend/src/store/chat.ts:70-83 | the temporary message becomes `UpdatedTemp`; nothing else changes |
| ChatStore.Store.ClearTempMessage | wood_ai_chat_frontend/src/store/chat.ts:86-88 | the temporary message is cleared and nothing else changes |
| ChatStore.Store.AllMessages | wood_ai_chat_frontend/src/store/chat.ts:92-97 | the stored messages in order, then the temporary one exactly when there is one |
| ChatStore.Store.LastAssistantMessage | wood_ai_chat_frontend/src/store/chat.ts:100-113 | the message at the highest assistant position, or none |
| AuthStore.LocalStorage.constructor | wood_ai_chat_frontend/src/store/auth.ts:29-47 | storage starts with the given items |
| AuthStore.LocalStorage.SetItem | wood_ai_chat_frontend/src/store/auth.ts:30-31 | writing a key changes that key only |
| AuthStore.CodeRequestGuard | wood_ai_chat_frontend/src/store/auth.ts:49-69 | a request goes out exactly when the address is given, a user is signed in, and the address differs from the bound one for sign-up or equals it for a password change |
| AuthStore.ClientFlagAlwaysTruthy | wood_ai_chat_frontend/src/api/verify.ts:7-8 | the `changePwd` text every client request carries is truthy on the server |
| AuthStore.Auth.constructor | wood_ai_chat_frontend/src/store/auth.ts:15-21 | not authenticated, no tokens, no user |
| AuthStore.Auth.SetUserInfo | wood_ai_chat_frontend/src/store/auth.ts:24-27 | sets the user and marks the store authenticated even for null |
| AuthStore.Auth.SetTokens | wood_ai_chat_frontend/src/store/auth.ts:29-35 | both tokens are written to storage and mirrored in state, and the store is authenticated |
| AuthStore.Auth.RestoreTokens | wood_ai_chat_frontend/src/store/auth.ts:38-47 | state changes only when both stored tokens are present and non-empty, and then holds them |
| AuthStore.Auth.GetEmailVerityCode | wood_ai_chat_frontend/src/store/auth.ts:49-69 | the action's outcome is `CodeRequestFor` |
| AuthStore.Auth.AvatarURL | wood_ai_chat_frontend/src/store/auth.ts:72 | the URL starts with the base URL and continues with the avatar path |
| DateRange.DayStart | wood_ai_chat_frontend/src/utils/fun.ts:11-13 | local midnight: no later than the instant, less than a day before it, and on a local day boundary |
| DateRange.OnlyDayDifference | wood_ai_chat_frontend/src/utils/fun.ts:11-31 | the label depends only on the difference of the day starts, which is a whole number of days |
| DateRange.BucketMonotone | wood_ai_chat_frontend/src/utils/fun.ts:20-31 | for non-negative differences, the label's age rank grows with the difference and is never the error |
| DateRange.DayCounts | wood_ai_chat_frontend/src/utils/fun.ts:15-31 | 0 days is today, 1-6 within a week, 7-29 within a month, later is earlier, and a future day is the error |
| DateRange.SameDayIsToday | wood_ai_chat_frontend/src/utils/fun.ts:11-25 | two instants of the same local day read as today |
| TtlStore.SetExGet | wood_ai_chat_backend/verification/views.py:43 | a SETEX value reads back for exactly its lifetime, and other keys are untouched |
| TtlStore.DeleteGet | wood_ai_chat_backend/verification/views.py:100 | a deleted key reads as absent, and other keys are untouched |
| TtlStore.Store.constructor | wood_ai_chat_backend/verification/views.py:40-43 | the connection holds the given entries |
| TtlStore.Store.Fetch | wood_ai_chat_backend/verification/views.py:88-89 | GET returns the live value of the key |
| TtlStore.Store.Put | wood_ai_chat_backend/verification/views.py:43 | the entries become those of SETEX |
| TtlStore.Store.Remove | wood_ai_chat_backend/verification/views.py:100 | the entries become those of DEL |
| Verification.KeysDistinct | wood_ai_chat_backend/verification/views.py:43-98 | for one address the code key and the flag key differ, and each kind of key tells addresses apart |
| Verification.KeysCollide | wood_ai_chat_backend/verification/views.py:43-98 | the code key of `verified_<e>` is the flag key of `<e>` |
| Verification.EmailCodeMissing | wood_ai_chat_backend/verification/views.py:33-35 | a missing or empty address answers 400 before anything is written or mailed |
| Verification.EmailCodeTaken | wood_ai_chat_backend/verification/views.py:36-37 | without `changePwd`, a registered address answers 400 and nothing is written |
| Verification.ChangePwdSkipsTakenCheck | wood_ai_chat_backend/verification/views.py:33-36 | any non-empty `changePwd`, "false" included, makes the outcome independent of the user table |
| Verification.EmailCodeIssues | wood_ai_chat_backend/verification/views.py:39-75 | past the guards the code is stored for 300 s, replacing any earlier one, whatever the mailer does; status 200 or 500 follows the mailer; the mail carries the link with the code |
| Verification.DefaultLink | wood_ai_chat_backend/verification/views.py:46-50 | with default settings the link is `http127.0.0.1:8000/verify/email_verify/?code=...`: no `://` is inserted |
| Verification.EmailVerifyInvalid | wood_ai_chat_backend/verification/views.py:81-86 | a link without code or address redirects to failure and writes nothing |
| Verification.EmailVerifyOutcome | wood_ai_chat_backend/verification/views.py:88-104 | success exactly when the live stored code equals the link's; then the flag is "true" for 1800 s and the code is gone; otherwise the store is unchanged |
| Verification.VerifyOnce | wood_ai_chat_backend/verification/views.py:98-104 | after a successful verification, the same link fails at any later time and changes nothing |
| Verification.EmailVerifyView.constructor | wood_ai_chat_backend/verification/views.py:18-28 | the view shares the given store and settings |
| Verification.EmailVerifyView.RequestCode | wood_ai_chat_backend/verification/views.py:30-75 | the answer and the store afterwards are those of `EmailCode` |
| Verification.EmailVerifyView.VerifyCode | wood_ai_chat_backend/verification/views.py:78-104 | the redirect and the store afterwards are those of `EmailVerify` |
| UserSerializers.VerifiedForHalfAnHour | wood_ai_chat_backend/users/serializers.py:12-23 | after a successful `email_verify`, `ver_email` holds for exactly the next 30 minutes |
| UserSerializers.ConsumedFlag | wood_ai_chat_backend/users/serializers.py:129 | once the flag is deleted, the address is no longer verified |
| UserSerializers.AvatarRule | wood_ai_chat_backend/users/serializers.py:59-74 | an avatar passes exactly when there is no file, or it is at most 2 MiB with a lower-cased extension of jpg, jpeg or png; size is checked first |
| UserSerializers.AcceptedAvatarPath | wood_ai_chat_backend/users/serializers.py:59-74 | an accepted avatar is stored under a path ending in an accepted extension |
| UserSerializers.UserValidateStore | wood_ai_chat_backend/users/serializers.py:124-130 | the store changes only when `validate` accepts, and then only by consuming the live flag of the given address |
| UserSerializers.OldPasswordFirst | wood_ai_chat_backend/users/serializers.py:100-110 | on update, a wrong old password is reported before any other check |
| UserSerializers.CreateNeedsVerifiedEmail | wood_ai_chat_backend/users/serializers.py:111-130 | on create with an address, only a verified address is accepted and its flag is consumed; otherwise the answer is "邮箱未验证" with nothing changed |
| UserSerializers.SameEmailNoVerification | wood_ai_chat_backend/users/serializers.py:100-106 | an update keeping the address, with no new password, is accepted with the store untouched |
| UserSerializers.ConfirmChecks | wood_ai_chat_backend/users/serializers.py:116-121 | with a new password, a missing confirmation and then a differing one are refused, in that order |
| UserSerializers.NewPasswordNeverValidated | wood_ai_chat_backend/users/serializers.py:94-121 | validated attributes never hold `new_password`, so the confirmation checks never fire, and on update only a changed address asks for verification |
| UserSerializers.ValidateUser | wood_ai_chat_backend/users/serializers.py:76-130 | the verdict and store after `validate` are those of `UserValidate` |
| UserSerializers.CreateUser | wood_ai_chat_backend/users/serializers.py:132-137 | the new user's saved row is `CreatedRow`: defaults, name from username, and a hashed password |
| UserSerializers.CreatedRowDefaults | wood_ai_chat_backend/users/models.py:26-58 | a created user with a username has a name, a valid gender, and the default avatar when none was given |
| UserSerializers.TranslateFirstMatch | wood_ai_chat_backend/users/serializers.py:181-191 | the first rule whose fragment occurs decides the translation |
| UserSerializers.TranslateUnmatched | wood_ai_chat_backend/users/serializers.py:190-191 | a message no rule matches passes through unchanged |
| UserSerializers.TranslateChain | wood_ai_chat_backend/users/serializers.py:182-191 | the rule table equals the chain of `if`/`elif` tests |
| UserSerializers.TranslateMessages | wood_ai_chat_backend/users/serializers.py:179-193 | the loop translates each message, in order |
| UserSerializers.TranslateAll | wood_ai_chat_backend/users/serializers.py:179-193 | one translation per message |
| UserSerializers.PlainFieldChecked | wood_ai_chat_backend/users/serializers.py:142-144 | a required text field accepts exactly the values that are not blank and hold no NUL character once stripped, and keeps the stripped text |
| UserSerializers.EmailFieldChecked | wood_ai_chat_backend/users/serializers.py:141-152 | the address passes exactly when it is not blank, has no NUL, is well formed and, stripped, is the requesting user's address |
| DrfFields.CheckEmailCases | wood_ai_chat_backend/users/serializers.py:141 | an `EmailField` accepts exactly the non-blank, NUL-free, well-formed addresses and keeps the stripped text; a malformed address reports "Enter a valid email address." last |
| UserSerializers.ChangeFieldsClean | wood_ai_chat_backend/users/serializers.py:141-152 | the field pass reports nothing exactly when all four fields pass their checks and the address is the user's |
| UserSerializers.ChangeFieldsNamed | wood_ai_chat_backend/users/serializers.py:141-152 | the error dict names exactly the failing fields, in declaration order: email, old_password, new_password, confirm_password |
| UserSerializers.CleanChangeEmail | wood_ai_chat_backend/users/serializers.py:147-152 | with no field error, the address `validate` sees is the user's own |
| UserSerializers.FieldErrorsFirst | wood_ai_chat_backend/users/serializers.py:141-154 | a field error ends validation: the refusal is the error dict and the store is unchanged, whatever `validate` would say |
| UserSerializers.ChangeValidateOutcome | wood_ai_chat_backend/users/serializers.py:154-196 | `validate` accepts exactly when the address is verified, the old password checks, the confirmation matches and no strength error was raised; it accepts the new password given and only then consumes the flag |
| UserSerializers.ChangeValidateOrder | wood_ai_chat_backend/users/serializers.py:162-193 | `validate`'s checks run in order: verified address, old password, confirmation, strength; the first failure is reported under `non_field_errors` |
| UserSerializers.ValidateAfterFields | wood_ai_chat_backend/users/serializers.py:141-196 | with no field error, the outcome is that of `validate` on the stripped values, with the user's own address |
| UserSerializers.AcceptedPasswordStripped | wood_ai_chat_backend/users/serializers.py:142-145 | an accepted change carries the stripped new password |
| UserSerializers.ValidateChange | wood_ai_chat_backend/users/serializers.py:154-196 | the verdict and the store afterwards are those of `ChangeValidate` |
| UserSerializers.PasswordChangeOutcome | wood_ai_chat_backend/users/serializers.py:141-196 | a change is accepted exactly when the field pass reports nothing and every check of `validate` passes on the stripped values; the accepted password is the stripped new one; only then is the flag of the user's address consumed |
| UserSerializers.PasswordChangeOrder | wood_ai_chat_backend/users/serializers.py:154-193 | with no field error, the checks run in order: verified address, old password, confirmation, strength; the first failure is reported under `non_field_errors` |
| UserSerializers.ValidatePasswordChange | wood_ai_chat_backend/users/serializers.py:141-196 | the verdict and the store afterwards are those of `PasswordChangeValidate`: the field pass, then `validate` |
| UserModels.Extension | wood_ai_chat_backend/users/models.py:13 | the extension is lower-case with no dot, and is the whole lower-cased name when the name has no dot |
| UserModels.AfterLastDotted | wood_ai_chat_backend/users/models.py:13-14 | the text after the last dot of `prefix.ext` is `ext` |
| UserModels.JoinRelative | wood_ai_chat_backend/users/models.py:15 | `os.path.join` of a directory and a relative name puts one `/` between them |
| UserModels.UploadPathShape | wood_ai_chat_backend/users/models.py:7-15 | the path is `avatar/<uuid>.<ext>`, and its extension reads back as the uploaded name's |
| UserModels.SavedName | wood_ai_chat_backend/users/models.py:60-64 | an empty name becomes the username; a non-empty one is kept |
| UserModels.SavedNameStable | wood_ai_chat_backend/users/models.py:60-64 | saving twice writes what saving once does; the saved name is empty only when both name and username are |
| UserModels.User.constructor | wood_ai_chat_backend/users/models.py:18-58 | a new user holds the given fields and no saved row |
| UserModels.User.Save | wood_ai_chat_backend/users/models.py:60-64 | only the name may change, by the default rule, and the row written is the new fields |
| UserViews.LoginGuards | wood_ai_chat_backend/users/views.py:74-107 | empty credentials are refused whatever `authenticate` gives; a login succeeds exactly when both are given and authenticate an active user |
| UserViews.LoginExtrasKeys | wood_ai_chat_backend/users/views.py:98-107 | the login extras are `access`, `refresh` and `expires_in`, all distinct |
| UserViews.LoginBody | wood_ai_chat_backend/users/views.py:98-107 | the successful body has status 200 and both tokens and the lifetime under their keys |
| UserViews.Login | wood_ai_chat_backend/users/views.py:74-107 | only a successful login touches the user, setting `last_login` and saving; a refusal leaves the user unchanged |
| UserViews.PerformDestroy | wood_ai_chat_backend/users/views.py:59-61 | the row stays, with only `is_active` false (and the name default of save) |
| UserViews.UpdateAvatar | wood_ai_chat_backend/users/views.py:117-131 | a missing or nameless file answers 400 and leaves the user alone; otherwise the avatar becomes the upload path and is saved |
| UserViews.AvatarUncheckedOnUpdate | wood_ai_chat_backend/users/views.py:117-131 | a file that `validate_avatar` refuses still counts as present for `update_avatar` |
| UserViews.RawPasswordAttribute | wood_ai_chat_backend/users/views.py:42-57 | a `password` attribute overrides the hashed `newPassword` and is stored as given; the address is the given one or the old one |
| UserViews.TextAssigned | wood_ai_chat_backend/users/views.py:52 | the text assignments set each given text attribute and touch no other field |
| UserViews.ProfileAssigned | wood_ai_chat_backend/users/views.py:52 | gender and activity are set when given, the avatar becomes the upload path of a given file, and no other field changes |
| UserViews.UpdatedFields | wood_ai_chat_backend/users/views.py:42-57 | after an update every given attribute has replaced its field, every other keeps its value, and the last login is untouched |
| UserViews.AvatarCheckedOnUpdate | wood_ai_chat_backend/users/serializers.py:59-74 | `update` refuses an avatar that is too large or not an image with 400 `avatar:<message>` and the store untouched; an accepted avatar is stored under a jpg, jpeg or png path |
| UserViews.UpdateChecksOldAgainstNew | wood_ai_chat_backend/users/views.py:45-51 | with `newPassword` given, an old password that does not hash like the new one is refused, whatever the real password |
| UserViews.AssignAttributes | wood_ai_chat_backend/users/views.py:52 | every validated attribute is assigned (text fields, gender, activity, and the avatar under its upload path), and nothing is saved |
| UserViews.AssignTextAttributes | wood_ai_chat_backend/users/views.py:52 | the text attributes are assigned as given, and nothing is saved |
| UserViews.AssignProfileAttributes | wood_ai_chat_backend/users/views.py:52 | gender, activity and the avatar's upload path are assigned when given, and nothing is saved |
| UserViews.Update | wood_ai_chat_backend/users/views.py:42-57 | the reply and the store are those of `UpdateOutcome`: a refused avatar first, then `validate`; a refusal leaves the saved row as it was; success saves the row with every attribute assigned |
| UserViews.UpdatePassword | wood_ai_chat_backend/users/views.py:134-144 | verdict and store are those of `PasswordChangeValidate`; an accepted change hashes and saves the stripped new password; a refusal leaves the user unchanged |
| Responses.StandardResponseDefaults | wood_ai_chat_backend/utils/response.py:17-24 | called without data, message or status, the body says status 200, data null and message "操作成功"; only the timestamp can be replaced by a keyword field |
| Responses.StandardResponse | wood_ai_chat_backend/utils/response.py:16-30 | the body is the envelope with the keyword fields merged in order, and the HTTP status is the `status` argument |
| Responses.UpdateAllPrefix | wood_ai_chat_backend/utils/response.py:27 | merging keeps every key in place and only appends |
| Responses.UpdateAllHasKey | wood_ai_chat_backend/utils/response.py:27 | after merging, a key is present exactly when it was in the dict or among the keyword fields |
| Responses.UpdateAllLookup | wood_ai_chat_backend/utils/response.py:27 | a keyword field wins over the field of the same name; others read as before |
| Responses.EnvelopeKeys | wood_ai_chat_backend/utils/response.py:19-27 | the body starts with status, data, message, timestamp; the only other keys are the keyword fields |
| Responses.EnvelopeField | wood_ai_chat_backend/utils/response.py:17-27 | each field reads as the keyword field of that name if there is one, else as the envelope argument |
| Responses.EnvelopeBaseLookup | wood_ai_chat_backend/utils/response.py:19-24 | the four envelope keys carry status, data, message and timestamp |
| Responses.DetailMessages | wood_ai_chat_backend/utils/response.py:109-110 | one entry per field with as many messages as errors |
| Responses.BeforeColon | wood_ai_chat_backend/utils/response.py:110 | the text before the first ':' |
| Responses.BeforeColonOf | wood_ai_chat_backend/utils/response.py:110 | a field name with no ':' is what precedes the first ':' of `field:rest` |
| Responses.ValidationMessageSplits | wood_ai_chat_backend/utils/response.py:106-111 | the message splits into the first field's name and its first message, whatever later fields hold |
| Responses.HandlerShapes | wood_ai_chat_backend/utils/response.py:92-118 | throttled and validation responses carry exactly status, message and timestamp; the throttled message is the detail or "请求过于频繁", and an empty error dict gives "未知错误" |
| DrfFields.CheckCharsCases | wood_ai_chat_backend/chat/models.py:62-86 | a text field accepts exactly the non-blank (or allowed blank), short enough, NUL-free values, and keeps the stripped text |
| DrfFields.CheckCharsPlain | wood_ai_chat_backend/chat/models.py:81-86 | a value with no surrounding whitespace, no NUL and within the bound is kept as it is |

## Left out

- The OpenAI client (chat/views.py:131-139, 158-159): its construction, timeout and retries. The upstream is an oracle from the request configuration to a refusal or an event sequence with its end.
- Client disconnect (`GeneratorExit`) and concurrent streams on one session: a disconnect is the event sequence ending early, followed by the `finally` save.
- Persistence: the Django ORM and DRF serializer rendering are replaced by maps of rows. The session and model renderings in `message_start` are parameters. `created_at` is a clock reading, and its `strftime` text is a parameter.
- Redis I/O, the store's own clock and eviction: time is a parameter of every store operation. `ver_email` with no connection (users/serializers.py:16-17) is not modelled.
- `send_mail`, `secrets.token_urlsafe`, `uuid4`, `datetime.now`, `time.time`, `authenticate`, `check_password`, `set_password`'s hasher, `validate_password` and `RefreshToken`: each is a parameter or oracle.
- The mail's HTML text and the redirect URL encoding: only the recipient, sender and link are modelled.
- `UserSerializer`'s field-level checks other than `validate_avatar` (unique username and email, `max_length`, email syntax, the parsing of `gender` and `is_active`, and the image checks of the avatar field) are not modelled. `create` and `update` take validated data.
- `create`'s `validated_data.pop("confirm_password")` raising `KeyError` when the key is absent: `CreateUser` takes data that no longer holds it.
- `query_info` and `register` (users/views.py:65-70, 111-114): thin wrappers around the serializer, which is modelled.
- `ChatSettings` (chat/models.py:98-116): no logic uses it.
- The list, retrieve, update and destroy mixins of utils/response.py:34-88: they only wrap serializer output in `StandardResponse`, which is modelled.
- `ChatSessionSerializer` and `ChatMessageSerializer` (chat/serializers.py) beyond the field checks they apply to `title`, `content`, `parent_message` and `message_resp_id`: their renderings are parameters.
- The client-side stream reader (api/chat.ts), the token-refresh interceptor (utils/request.ts), routing and configuration are not part of this model.
- Time zones: `DateRange` uses a fixed offset from UTC, so daylight-saving changes are not modelled. An unparsable date is an absent instant.
- `str()` of a non-dict payload and of a library exception: given as text with the payload or the failure.
- `UserModels.Extension`: only the ASCII letters A to Z are lower-cased. Python's `str.lower()` folds every cased letter, so an extension with other capital letters is kept as written.
- `UserSerializers.PasswordChangeValidate`: every field of the request is taken as present; the "This field is required." error of a missing field is not modelled. Django's address check is the parameter `emailValid`.
- `Verification.EmailCodeIssues`: states the status but not the message texts of the 200 and 500 answers.
