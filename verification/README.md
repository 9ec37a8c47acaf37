# LiquidChat chat core in Dafny

This project models the core of LiquidChat, a Django Channels chat backend:

- the two WebSocket consumers, `GlobalChatConsumer` (the public room
  `global_chat`) and `PrivateChatConsumer` (a user's inbox `user_<id>`),
  with their connect, receive, disconnect and event handlers;
- the presence cache (`user_presence:<id>` keys with a 60-second expiry);
- the JWT query-string gate that puts a user, or the anonymous user, into
  the connection scope;
- the REST error envelope and the `APIError` classes;
- the chat views: mark-read, get-or-create a conversation, the message
  histories and the conversation list;
- the conversation serializers and the registration and login serializers.

Each `await` is one atomic step. The channel layer is a map from group name
to the set of channel names in it. `group_send` runs the receiving consumer's
handler for every member and appends what that handler writes to the
member's outbox. The database is a set of in-memory tables (`Database.Tables`)
held by the `ChatStore` class.

Code that changes state step by step is imperative Dafny, each method proved
equal to a specification function:

- `Consumers.Hub` holds the registry, presence cache, consumer instances,
  outboxes and the store;
- `Presence.Cache` holds the presence cache;
- `Middleware.Scope` holds the connection scope;
- `Errors.Response` holds the error response;
- the view methods act on the `ChatStore` object.

Decisions and queries are functions, with lemmas stating what the source
promises.

Some external calls and values become parameters:

- `bleach.clean` is `sanitize`;
- `jwt.decode` is `decode`;
- password hashing and `check_password` are `hash` and `checkPassword`;
- UUID and auto-increment ids are `newId`;
- `timezone.now()` is `now`, in integer seconds.

Some behaviour of the code is easy to misread, and the model keeps it as written:

- Content is stripped, sanitised and then cut to 2000 characters, so the
  sanitiser sees the full text.
- A non-object JSON frame, or a non-string `content`, makes `receive` raise.
  These frames are not silently dropped.
- A private send naming a missing conversation raises `DoesNotExist` from
  `send_private_message`. It is not silently dropped.
- A sender who is not a participant is neither checked nor refused. The
  message is stored and goes to the participant other than the sender whose
  account was created last, because `User` is ordered by `-created_at`.
- A send from a user whose row was deleted after connecting raises
  `DoesNotExist` from `User.objects.get` before anything is stored.
- Asking for a conversation with oneself matches any two-person
  conversation of the requester, because both filters then only ask for
  the requester among two participants. Once the requester has one, a
  self-request returns the latest of them, which includes another user.
  While the requester has none, every self-request stores a new one-person
  conversation, which the two-participant search never finds again.
- Registration checks that the username is free and that the two passwords
  match. Despite its docstring, it does not check password strength:
  `validate_password` is imported but never called.
- A disconnect deletes the user's presence key even while another connection
  of the same user is open.

## Model

| member | source | states |
|---|---|---|
| Common.Strip | apps/chat/consumers.py:117 | `str.strip()`: the result is the input without its leading and trailing whitespace, and neither end of a non-empty result is whitespace |
| Common.TruncateIsBoundedPrefix | apps/chat/consumers.py:126-127 | cutting to `MESSAGE_MAX_LENGTH` gives a prefix of at most that length, the whole text when it is short enough |
| Common.UserGroupInjective | apps/chat/consumers.py:247 | distinct users have distinct inbox groups `user_<id>`, none of them `global_chat` |
| Common.PresenceKeyInjective | apps/chat/presence.py:29 | distinct users have distinct presence keys |
| Common.Split | apps/chat/middleware.py:52 | `str.split` on one character: at least one part, no part contains the separator, the first part is the text before the first separator |
| Common.JoinSplit | apps/chat/middleware.py:52 | joining the parts with the separator gives back the text |
| Presence.MarkOnlineWindow | apps/chat/presence.py:27-33 | after `set_user_online` at `now` the user reads online, in both the loose and the strict sense, exactly until `now + 60`; other users are unaffected |
| Presence.MarkOfflineClears | apps/chat/presence.py:51-53 | after `set_user_offline` the user reads offline; a second call changes nothing; other users are unaffected |
| Presence.RefreshResetsTtl | apps/chat/presence.py:118-119 | a refresh replaces the earlier expiry with a new one |
| Presence.StrictImpliesOnline | apps/chat/presence.py:72 | the strict `is True` test implies the loose `is not None` test; see also apps/chat/presence.py:97 |
| Presence.Cache.SetUserOnline | apps/chat/presence.py:27-35 | writes `True` with the 60-second expiry and returns True; an unreachable cache returns False and changes nothing |
| Presence.Cache.SetUserOffline | apps/chat/presence.py:51-55 | deletes the key and returns True, with the user then offline at every time; an unreachable cache returns False |
| Presence.Cache.IsUserOnline | apps/chat/presence.py:71-74 | true exactly when the cache is reachable and holds an unexpired entry for the user whose value is not `None`; false whenever the cache is unreachable |
| Presence.Cache.RefreshUserPresence | apps/chat/presence.py:118-121 | the same effect and result as `SetUserOnline` |
| Presence.Cache.GetOnlineUsers | apps/chat/presence.py:90-102 | the keys are exactly the ids asked for; an entry is true exactly when the stored value is `True`; an unreachable cache maps every id to false |
| Database.FindBy | apps/chat/consumers.py:445-446 | `objects.get` on a key: a found row is in the table and has that key; nothing is found exactly when no row has it; `FindUser`, `FindUserByName` and `FindConversation` are this lookup on the id, the username and the conversation id |
| Database.FindActiveUser | apps/chat/views.py:317 | a found user is in the table, has the id and is active; nothing is found exactly when every row with the id is inactive |
| Database.OtherParticipant | apps/chat/consumers.py:437 | a user row that is a participant and not the requester, created no earlier than any other such row, as the `-created_at` ordering of `User` makes `.first()` pick; nothing exactly when no such row exists; see also apps/authentication/models.py:81 |
| Database.PairParticipants | apps/chat/views.py:325 | the two users, each once |
| Database.TouchConversation | apps/chat/consumers.py:455 | no field other than `updated_at` changes in any row, and `updated_at` becomes `now` exactly in the rows with the conversation's id |
| Database.StampLastSeen | apps/chat/consumers.py:192-194 | no field other than `last_seen` changes in any user row, and `last_seen` becomes `now` exactly in the rows with the user's id; other tables are untouched |
| Database.ChatStore.UpdateLastSeen | apps/chat/consumers.py:192-194 | the row-by-row update leaves the store equal to `StampLastSeen` of the old store |
| Database.ChatStore.CreatePrivateMessage | apps/chat/consumers.py:443-455 | appends the unread message and stamps its conversation |
| Database.ChatStore.CreateGlobalMessage | apps/chat/consumers.py:197-207 | appends the global message |
| Consumers.React | apps/chat/consumers.py:152-179 | a forwarded frame carries the event's own fields: user id, username and status of a presence event, the global or private message record, the typer's id and name, the conversation id and the status of a typing indicator; a forwarded presence event has a username; no handler produces the sender confirmation; see also apps/chat/consumers.py:384-407 |
| Consumers.ReactDispatch | apps/chat/consumers.py:152-179 | a global consumer forwards exactly global messages and presence events about another user that carry a username, suppresses exactly presence events about its own user, and fails on anything else; a private consumer forwards exactly private messages and typing indicators and fails on anything else; see also apps/chat/consumers.py:384-407 |
| Consumers.Admit | apps/chat/consumers.py:46-70 | an authenticated connect adds the channel to its group, opens the socket, writes presence and leaves the database alone |
| Consumers.Release | apps/chat/consumers.py:79-101 | an authenticated disconnect removes the channel from its group, deletes the presence key and stamps `last_seen` |
| Consumers.GroupSendDelivers | apps/chat/consumers.py:133-147 | a channel outside the group is not written to; a member whose handler accepts the event gets exactly that one frame; a member without a handler for it gets nothing |
| Consumers.LookupConversation | apps/chat/consumers.py:425-430 | a found conversation is stored and its id is exactly the client's `conversation_id` text; a string naming a stored conversation always finds one |
| Consumers.ReceiveGlobalSpec | apps/chat/consumers.py:103-150 | `receive` never changes the registry, the consumers or presence; a raising frame changes nothing |
| Consumers.SendPrivateSpec | apps/chat/consumers.py:292-337 | a private send leaves registry, consumers, presence and global messages alone; a raising frame changes nothing |
| Consumers.DeliverPrivate | apps/chat/consumers.py:306-337 | the database gains exactly the unread message, and its conversation is stamped |
| Consumers.TypingSpec | apps/chat/consumers.py:339-379 | typing changes neither registry, consumers, presence nor database |
| Consumers.ReceivePrivateSpec | apps/chat/consumers.py:280-382 | as for the global consumer, and global messages are untouched |
| Consumers.Hub.Connect | apps/chat/consumers.py:35-70 | `connect` performs the steps of `ConnectSpec` in order; see also apps/chat/consumers.py:234-258 |
| Consumers.Hub.Disconnect | apps/chat/consumers.py:72-101 | `disconnect` performs the steps of `DisconnectSpec` in order; see also apps/chat/consumers.py:260-278 |
| Consumers.Hub.ReceiveGlobal | apps/chat/consumers.py:103-150 | global `receive` agrees with `ReceiveGlobalSpec`, outcome included |
| Consumers.Hub.ReceivePrivate | apps/chat/consumers.py:280-382 | private `receive` agrees with `ReceivePrivateSpec`, outcome included |
| Consumers.Hub.SendPrivate | apps/chat/consumers.py:292-337 | the private send branch agrees with `SendPrivateSpec` |
| Consumers.Hub.Deliver | apps/chat/consumers.py:306-337 | save, recipient lookup, inbox publish and confirmation agree with `DeliverPrivate`; see also apps/chat/consumers.py:443-466 |
| Consumers.Hub.ForwardTyping | apps/chat/consumers.py:339-379 | the typing branches agree with `TypingSpec` |
| Consumers.Hub.AnnouncePresence | apps/chat/presence.py:124-171 | the async announcers as written agree with `AnnouncePresenceSpec` |
| Consumers.Hub.AnnounceUserPresence | apps/chat/presence.py:124-171 | the announcers with the username agree with `AnnouncePresenceCorrectedSpec` |
| ConsumerProperties.GlobalMembersAreGlobalSessions | apps/chat/consumers.py:47-53 | in a well-formed state only authenticated global consumers are in `global_chat` |
| ConsumerProperties.InboxMembersAreTheUsersSessions | apps/chat/consumers.py:246-252 | only private consumers of user `id` are in `user_<id>` |
| ConsumerProperties.AnonymousConnectIsRefused | apps/chat/consumers.py:40-44 | an anonymous connect closes with 4001 and joins no group, writes no presence, accepts nothing and sends nothing; see also apps/chat/consumers.py:239-243 |
| ConsumerProperties.ConnectPreservesWf | apps/chat/consumers.py:46-53 | connect keeps registry and consumer instances in agreement |
| ConsumerProperties.AuthenticatedConnectJoins | apps/chat/consumers.py:46-59 | an authenticated connect adds exactly its channel to its group and opens the socket |
| ConsumerProperties.AuthenticatedConnectMarksOnline | apps/chat/consumers.py:50-59 | the user is online exactly for the expiry window; join, presence write and accept happen in that order, then the global announcement |
| ConsumerProperties.ConnectAnnounces | apps/chat/consumers.py:61-70 | a global connect tells every other user's global consumer once; a private connect sends nothing; see also apps/chat/consumers.py:164-179 |
| ConsumerProperties.DisconnectPreservesWf | apps/chat/consumers.py:79-85 | disconnect keeps registry and consumer instances in agreement |
| ConsumerProperties.AuthenticatedDisconnect | apps/chat/consumers.py:79-91 | the channel leaves its group and the consumer is gone; the user reads offline; `last_seen` is `now` |
| ConsumerProperties.DisconnectAnnounces | apps/chat/consumers.py:92-101 | leaving the global room tells every other user's global consumer once; a private disconnect sends nothing |
| ConsumerProperties.DisconnectWithAnotherSessionOpen | apps/chat/consumers.py:189 | closing one of two connections of a user leaves the other in its group but the user reads offline; see also apps/chat/consumers.py:417 |
| ConsumerProperties.AnonymousDisconnectOnlyForgets | apps/chat/consumers.py:79 | a refused consumer's disconnect only forgets the instance |
| ConsumerProperties.IgnoredFrames | apps/chat/consumers.py:109-110 | anonymous or unparseable frames change nothing and complete; see also apps/chat/consumers.py:149-150 |
| ConsumerProperties.NonObjectFramesRaise | apps/chat/consumers.py:113-114 | a decoded frame that is not an object raises and changes nothing |
| ConsumerProperties.BlankContentIsDropped | apps/chat/consumers.py:117-120 | blank content stores and sends nothing; see also apps/chat/consumers.py:294-298 |
| ConsumerProperties.GlobalSendStoresThenBroadcasts | apps/chat/consumers.py:116-147 | the stored text is sanitised stripped content of at most 2000 characters; the save comes before the publish, which carries the saved id and time |
| ConsumerProperties.BroadcastReachesRoom | apps/chat/consumers.py:133-162 | every global-room consumer, the sender included, gets the message once; nobody else gets anything |
| ConsumerProperties.PrivateSendStores | apps/chat/consumers.py:306-312 | with the sender's row present, the message is stored unread under the sender's id and its conversation stamped; the trace is the save, then, when there is a recipient, the inbox publish and then the confirmation; see also apps/chat/consumers.py:443-455 |
| ConsumerProperties.PrivateDeliveryRoutesToInbox | apps/chat/consumers.py:313-337 | the other participant's consumers each get the message once and the sender's channel alone gets the confirmation; with no other participant nothing is sent |
| ConsumerProperties.OutsiderReachesNewestParticipant | apps/chat/consumers.py:433-438 | for a sender who is not a participant, the recipient is the participant created most recently |
| ConsumerProperties.PrivateSendToMissingConversationRaises | apps/chat/consumers.py:443-447 | naming a missing conversation raises before anything is stored or sent |
| ConsumerProperties.TypingReachesOnlyRecipient | apps/chat/consumers.py:339-379 | with no conversation or no other participant nothing changes; otherwise nothing but outboxes changes, every consumer of the other participant gets exactly one typing frame with the sender's id and name, the conversation id and the status, no other outbox changes, and the sender's never |
| ConsumerProperties.UnknownFrameTypesAreIgnored | apps/chat/consumers.py:116 | a frame whose `type` the consumer does not handle changes nothing and completes, for both consumers; see also apps/chat/consumers.py:293-360 |
| ConsumerProperties.MissingConversationIdIsIgnored | apps/chat/consumers.py:297-298 | a private send with a missing or falsy `conversation_id` changes nothing and completes |
| ConsumerProperties.DeletedSenderRaises | apps/chat/consumers.py:199 | a non-blank send from a user whose row is gone raises and changes nothing, in both consumers; see also apps/chat/consumers.py:445 |
| ConsumerProperties.AnnouncedPresenceReachesNobody | apps/chat/presence.py:139-146 | as written, every other user's global consumer fails on the missing username and nothing is sent; see also apps/chat/consumers.py:177 |
| ConsumerProperties.AnnouncedPresenceCounterexample | apps/chat/presence.py:139-146 | one global consumer of user "b": announcing user "a" makes its handler fail |
| ConsumerProperties.AnnouncedPresenceCorrectedReachesOthers | apps/chat/presence.py:136-171 | with the username, every other user's global consumer is told once and the user's own are not |
| Middleware.ExtractToken | apps/chat/middleware.py:51-55 | the scanning loop returns the token `QueryToken` defines |
| Middleware.FindTokenIsFirstMatch | apps/chat/middleware.py:52-55 | there is a token exactly when some parameter starts with `token=`; it comes from the first such parameter |
| Middleware.TokenValueIsTextUpToNextEquals | apps/chat/middleware.py:54 | the token is the text after `token=` up to the next `=`, with no percent-decoding |
| Middleware.Subject | apps/chat/middleware.py:87 | `user_id` when truthy, otherwise `id` |
| Middleware.UserFromToken | apps/chat/middleware.py:70-113 | an authenticated result comes from decoded claims whose subject is an active user of the table |
| Middleware.AuthenticatedOnlyByValidToken | apps/chat/middleware.py:48-66 | a scope user is authenticated only by a non-empty token that decodes to claims naming an active user; a missing or empty token gives the anonymous user whatever the decoder says |
| Middleware.TokenOutcomes | apps/chat/middleware.py:80-97 | expired or invalid tokens give the anonymous user; claims naming an id authenticate exactly when an active user has it; see also apps/chat/middleware.py:108-113 |
| Middleware.Authenticate | apps/chat/middleware.py:36-68 | `scope['user']` is always set, to `ScopeUserFor` of the query string |
| Errors.Lookup | apps/core/exceptions.py:59-60 | `detail in data` exactly when some entry has that key |
| Errors.PrefixedReadsBack | apps/core/exceptions.py:65-67 | one entry per list element, in order; each is the field name, then `: `, then the element unchanged |
| Errors.GetErrorMessage | apps/core/exceptions.py:47-76 | the nested loops compute `ErrorMessage` |
| Errors.EntriesInKeyOrder | apps/core/exceptions.py:63-71 | entries of each field come after those of earlier fields and before those of later ones |
| Errors.EntriesAppend | apps/core/exceptions.py:64-69 | the entries of consecutive runs of fields are concatenated |
| Errors.EntriesEmptyIff | apps/core/exceptions.py:71 | no entries exactly when every value is an empty list |
| Errors.DetailDominates | apps/core/exceptions.py:59-60 | a `detail` key gives its text whatever the other keys are |
| Errors.FallbackCases | apps/core/exceptions.py:71-76 | the default message for anything else, the first element for a non-empty list, the joined entries for a dict with some error |
| Errors.CustomExceptionHandler | apps/core/exceptions.py:15-44 | `None` passes through; otherwise the status is kept and the data becomes the envelope of message and old data |
| Errors.NewError | apps/core/exceptions.py:90-96 | as written: a constructed error exists exactly when a message is passed; its status is the given one or the class default |
| Errors.NewErrorCorrected | apps/core/exceptions.py:87-135 | the message defaults to the class's `default_message`, the status to its `status_code`; it agrees with `NewError` whenever a message is passed |
| Errors.NotFoundWithoutMessageFails | apps/core/exceptions.py:90-96 | `NotFoundError()` fails as written and is "Resource not found", 404, when corrected; see also apps/core/exceptions.py:117-121 |
| ChatSerializers.LastMessageIsLatest | apps/chat/serializers.py:38-47 | no preview exactly when the conversation has no message; otherwise a message with no newer one, its content a prefix of at most 100 characters |
| ChatSerializers.UnreadCountBounds | apps/chat/serializers.py:49-58 | zero without a requester; zero with one exactly when nothing from somebody else is unread; never more than the conversation's messages |
| ChatSerializers.ValidateUserId | apps/chat/serializers.py:73-80 | the value comes back unchanged or the error is "User not found or inactive." |
| ChatSerializers.ValidateUserIdAcceptsActiveUsers | apps/chat/serializers.py:76-79 | with unique ids, accepted exactly when an active user has the id |
| ChatSerializers.LatestMatches | apps/chat/serializers.py:91-95 | `.first()` under `-updated_at` returns a matching row with the largest `updated_at` of all matching rows, and nothing only when no row matches |
| ChatSerializers.LatestOfFreshRow | apps/chat/serializers.py:97-99 | a new matching row where nothing matched is the one `.first()` returns |
| ChatSerializers.CreateSpec | apps/chat/serializers.py:82-101 | a failed create changes nothing |
| ChatSerializers.CreateOrGetConversation | apps/chat/serializers.py:82-101 | `create` on the database agrees with `CreateSpec` |
| ChatSerializers.CreateReturnsShared | apps/chat/serializers.py:88-101 | fails exactly for a missing user; when a conversation with both users exists, whatever its number of participants, the latest of them is returned and nothing is stored; when none exists, a conversation of exactly the two users is appended and returned |
| ChatSerializers.CreateTwiceReturnsSame | apps/chat/serializers.py:91-101 | a second create for the pair returns the same conversation and stores nothing |
| ChatViews.MarkRead | apps/chat/views.py:269-273 | a row ends up read exactly when it was read or the request marks it; no other field of any row changes |
| ChatViews.MarkMessagesRead | apps/chat/views.py:245-275 | the view, with its bulk update of the message table, agrees with `MarkReadSpec` |
| ChatViews.MarkReadOutcomes | apps/chat/views.py:248-266 | 400 exactly without ids, 404 exactly when the requester is in no conversation of that id; both change nothing; users, conversations and global messages never change |
| ChatViews.MarkReadExactly | apps/chat/views.py:269-273 | `is_read` becomes true exactly on listed, unread messages of the conversation from others; no other field changes |
| ChatViews.MarkReadIdempotent | apps/chat/views.py:269-273 | a second identical request changes nothing and gets the same answer |
| ChatViews.UnreadAfterMarkRead | apps/chat/views.py:269-273 | afterwards the requester's unread messages are those unread before and not listed; see also apps/chat/serializers.py:53-57 |
| ChatViews.MarkingAllClearsUnreadCount | apps/chat/views.py:269-273 | listing every message of the conversation makes the unread count zero; see also apps/chat/serializers.py:49-58 |
| ChatViews.GetOrCreateConversation | apps/chat/views.py:298-325 | the view on the database agrees with `GetOrCreateSpec` |
| ChatViews.GetOrCreateOutcomes | apps/chat/views.py:304-325 | when a two-person conversation of the pair exists, the latest of them is returned with the tables unchanged; when none exists, 404 with no change exactly when the other user is missing or inactive, and otherwise a conversation of exactly the two users is appended and returned |
| ChatViews.GetOrCreateTwiceReturnsSame | apps/chat/views.py:304-325 | a second request for the same other user returns the same conversation and stores nothing; for a request with oneself see the next row |
| ChatViews.GetOrCreateWithSelfStoresAnotherEachTime | apps/chat/views.py:304-325 | as written, while the requester has no two-person conversation, two requests with oneself store two one-person conversations, because neither has two participants |
| ChatViews.GetOrCreateWithSelfReturnsAnyTwoPersonConversation | apps/chat/views.py:304-311 | as written, once the requester has a two-person conversation, a request with oneself stores nothing and returns the latest of the requester's two-person conversations, which includes another user |
| ChatViews.ViewAndSerializerDisagreeOnGroups | apps/chat/views.py:304-311 | for a three-person conversation of the pair the serializer returns it and the view creates a new one; see also apps/chat/serializers.py:91-95 |
| ChatViews.HistoriesOldestFirst | apps/chat/views.py:175-186 | histories are oldest first and hold exactly the conversation's (or all global) messages; empty for a non-participant; see also apps/chat/views.py:214-220 |
| ChatViews.ConversationListContents | apps/chat/views.py:45-50 | exactly the requester's conversations, each as often as in the table, most recently updated first |
| AuthSerializers.ValidateRegistration | apps/authentication/serializers.py:53-60 | a taken username is reported first, keyed `username`; otherwise accepted exactly when the passwords match, unchanged, and the error is keyed `password_confirm`; see also apps/authentication/models.py:47-51 |
| AuthSerializers.RegisterUser | apps/authentication/serializers.py:62-71 | with the username free, stores one active row with the hash of the password and the creation time; with it taken the insert is refused and nothing changes |
| AuthSerializers.RegistrationKeepsUsernamesUnique | apps/authentication/models.py:47-51 | a validated registration keeps usernames unique, and a login by that username then finds the new row |
| AuthSerializers.StoredRowKeepsOnlyTheHash | apps/authentication/serializers.py:64-69 | the stored row depends on the password only through its hash, and not on the confirmation |
| AuthSerializers.ValidateLogin | apps/authentication/serializers.py:97-122 | a successful login returns the table's user with that username |
| AuthSerializers.LoginDecisionOrder | apps/authentication/serializers.py:103-122 | "Invalid credentials." exactly for an unknown user or a wrong password; "Account is disabled." only after the password passes; success only for an active account whose password passes |
| AuthSerializers.IsOnlineFieldIsLooser | apps/authentication/serializers.py:162 | the strict bulk test implies the field; a cached `False` is online for the field and offline for the bulk test; see also apps/chat/presence.py:97 |

## Left out

- Channel-layer transport, capacity, expiry and cross-process delivery are not modelled. Concurrent interleavings of consumers are not modelled either: each `await` is one atomic step, and `group_send` is one atomic fan-out.
- `bleach.clean`, `jwt.decode`, password hashing, `check_password`, UUID generation, `timezone.now()` and `isoformat` are opaque. They appear as parameters, and timestamps are integers.
- The `print` debug logging is not modelled.
- Serialized response bodies are not modelled. This covers the `messages` list in the get-or-create response, the conversation detail and create views, and the serializer `data`.
- Pagination and the `limit`/`before` parameters in the history view docstrings are not modelled. The code does not implement them.
- The `JwtAuthMiddlewareStack` wiring and the other configuration files are not modelled. Only `MESSAGE_MAX_LENGTH` and `PRESENCE_EXPIRY` are used.
- Middleware.UserFromToken: a subject that is truthy but not a string, or a malformed UUID, gives the anonymous user. Django would coerce the value or raise a `ValidationError`.
- Consumers.LookupConversation: a `conversation_id` that is not a string names no conversation. Django would raise a `ValidationError` for a malformed UUID. The id text is matched exactly, so the other spellings of a UUID that Django accepts (upper case, no hyphens, braces) name no conversation here. For the same reason the `conversation_id` that the message and typing frames echo back always equals the stored id.
- Consumers.ReceiveGlobalSpec, Consumers.ReceivePrivateSpec and Consumers.React: an exception escaping `receive` or an event handler is reported as `Raised` or `Fail`, and the model's state stays as it was. In Channels the exception ends the consumer and its socket without running `disconnect`, so the group membership and the presence key stay behind. The model does not follow a consumer past that point.
- AuthSerializers.ValidateRegistration: DRF field parsing other than the unique-username check is not modelled. This covers `CharField` trimming of surrounding whitespace (passwords included), the 150-character `max_length` and required-field errors. The attributes are those after parsing.
- ChatViews.MarkMessagesRead: `message_ids` is a list of ids, and a missing one is the empty list. Non-list payloads and malformed UUIDs are not modelled.
- ChatViews.GetOrCreateSpec: `Count('participants')` is the length of the duplicate-free participant list. The join multiplication of `annotate` followed by `filter` is not modelled.
- ChatSerializers.UnreadCount: a request whose user is anonymous is not modelled, because every view using it requires authentication.
- Consumers.Admit and Consumers.Release: a failing cache is not modelled. The consumers' own `set_user_online` and `set_user_offline` have no `try`, unlike the presence module's. With the cache unreachable, `connect` would raise after `group_add` and before `accept`. `disconnect` would raise after `group_discard`, so `last_seen` would not be stamped and no offline notice would go out. In the model the presence writes always succeed.
- AuthSerializers.IsOnlineField: a failing cache is not modelled. `get_is_online` has no `try` and would raise.
- Errors.CustomExceptionHandler: the input response holds DRF's raw payload, which DRF's `exception_handler` always produces. `str()` of a nested value is given as the value's `text`.
- Errors.NewError: the exception object is an immutable value, not a mutable `Exception` instance.
- The Django ORM is not modelled. Tables are sequences in primary-key order, and `participants` is a duplicate-free sequence in query order.

## Findings

| source | as written | input that shows it | evidently intended | confidence | as-written member | corrected member |
|---|---|---|---|---|---|---|
| apps/chat/presence.py:139-146 | `async_set_user_online`/`async_set_user_offline` publish a `user_presence` event without `username`. `GlobalChatConsumer.user_presence` reads `event['username']`, so every other user's global consumer raises `KeyError`. | one global consumer of user "b"; `async_set_user_online("a")` | the event carries the username, as the consumers' own presence events do | not executed; high that the handler raises, medium on intent | ConsumerProperties.AnnouncedPresenceCounterexample | ConsumerProperties.AnnouncedPresenceCorrectedReachesOthers |
| apps/core/exceptions.py:90-96 | `APIError.__init__` assigns `self.message` only when a message is passed. It then calls `super().__init__(self.message)`, and no class defines `message`, so the call raises `AttributeError`. | `NotFoundError()` | the message falls back to the class's `default_message` | not executed; high | Errors.NotFoundWithoutMessageFails | Errors.NewErrorCorrected |
