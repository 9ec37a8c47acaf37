/** The WebSocket chat consumers (apps/chat/consumers.py) and the two async
    presence announcers (apps/chat/presence.py).

    Every `await` is one atomic step. The channel layer is a registry from
    group name to the set of channel names in it; `group_send` runs the
    handler of every member for the event, and what a handler sends to its
    socket is appended to that channel's outbox. A consumer instance is the
    `Session` its channel name maps to. `World` is the whole state; each step
    is a function on it, each consumer entry point is the composition of its
    steps in source order (`ConnectSpec`, `DisconnectSpec`, ...), and `Hub`
    runs the same steps on mutable fields and is proved to agree with them. */
module Consumers {
  import opened Common
  import opened Presence
  import opened Database

  /** Close code for anonymous connections; section 7.4.2 of RFC 6455
      reserves 4000-4999 for private use by applications. */
  const CLOSE_UNAUTHENTICATED: int := 4001

  datatype ConsumerKind = GlobalChat | PrivateChat

  datatype Socket = Connecting | Open | Closed(code: int)

  /** One consumer instance: its class, the `scope['user']` it was built
      with, and its socket. `self.user` and `self.group_name` exist exactly
      when the scope user is authenticated, and are determined by it. */
  datatype Session = Session(kind: ConsumerKind, scopeUser: ScopeUser, socket: Socket)

  /** `self.group_name`: `global_chat`, or the user's own inbox `user_<id>`. */
  function GroupOf(kind: ConsumerKind, u: User): GroupName {
    if kind == GlobalChat then GLOBAL_GROUP else UserGroup(u.id)
  }

  datatype PresenceStatus = Online | Offline
  datatype TypingStatus = Typing | Stopped

  /** The `message` dict of a `global_message` event. */
  datatype GlobalRecord = GlobalRecord(
    id: int, senderId: UserId, senderName: string, content: string, timestamp: int)

  /** The dict `send_private_message` returns. */
  datatype PrivateRecord = PrivateRecord(
    id: MessageId, conversationId: ConversationId, senderId: UserId,
    senderName: string, content: string, timestamp: int)

  /** What `group_send` carries; `username` is absent from the events the
      async presence announcers publish. */
  datatype Event =
    | GlobalMessageEvent(global: GlobalRecord)
    | PresenceEvent(userId: UserId, username: Option<string>, status: PresenceStatus)
    | PrivateMessageEvent(message: PrivateRecord)
    | TypingEvent(typerId: UserId, typerName: string, conversationId: ConversationId, typing: TypingStatus)

  /** What a consumer writes to its socket. */
  datatype OutFrame =
    | GlobalMessageFrame(global: GlobalRecord)
    | PresenceFrame(userId: UserId, username: string, status: PresenceStatus)
    | PrivateMessageFrame(message: PrivateRecord)
    | PrivateMessageSentFrame(message: PrivateRecord)
    | TypingFrame(typerId: UserId, typerName: string, conversationId: ConversationId, typing: TypingStatus)

  /** What a receiving consumer's handler does with an event: send one
      frame, send nothing, or raise (no handler for the event type, or a
      missing key or attribute). */
  datatype Reaction = Forward(frame: OutFrame) | Suppress | Fail

  /** The handlers `global_message`, `user_presence`, `private_message` and
      `typing_indicator`, dispatched on the event type. */
  function React(s: Session, e: Event): (r: Reaction)
    // What is forwarded is the event's own content.
    ensures r.Forward? && e.PresenceEvent? ==> e.username.Some? && r.frame == PresenceFrame(e.userId, e.username.value, e.status)
    ensures r.Forward? && e.GlobalMessageEvent? ==> r.frame == GlobalMessageFrame(e.global)
    ensures r.Forward? && e.PrivateMessageEvent? ==> r.frame == PrivateMessageFrame(e.message)
    ensures r.Forward? && e.TypingEvent? ==>
      r.frame == TypingFrame(e.typerId, e.typerName, e.conversationId, e.typing)
    ensures r.Forward? ==> !r.frame.PrivateMessageSentFrame?
  {
    match s.kind
    case GlobalChat =>
      (match e
       case GlobalMessageEvent(m) => Forward(GlobalMessageFrame(m))
       case PresenceEvent(id, name, status) =>
         if s.scopeUser.Anonymous? then Fail
         else if id == s.scopeUser.user.id then Suppress
         else if name.None? then Fail
         else Forward(PresenceFrame(id, name.value, status))
       case _ => Fail)
    case PrivateChat =>
      (match e
       case PrivateMessageEvent(m) => Forward(PrivateMessageFrame(m))
       case TypingEvent(id, name, conv, typing) => Forward(TypingFrame(id, name, conv, typing))
       case _ => Fail)
  }
  /** Which events each consumer kind handles. The global consumer forwards
      global messages and other users' presence with a username, ignores its
      own user's presence, and has no handler for anything else; the private
      consumer forwards private messages and typing indicators and has no
      handler for anything else. */
  lemma ReactDispatch(s: Session, e: Event)
    ensures s.kind == GlobalChat ==>
      (React(s, e).Forward? <==> e.GlobalMessageEvent? ||
                                 (e.PresenceEvent? && s.scopeUser.Authenticated? &&
                                  e.userId != s.scopeUser.user.id && e.username.Some?))
    ensures s.kind == GlobalChat ==>
      (React(s, e) == Suppress <==> e.PresenceEvent? && s.scopeUser.Authenticated? && e.userId == s.scopeUser.user.id)
    ensures s.kind == PrivateChat ==> (React(s, e).Forward? <==> e.PrivateMessageEvent? || e.TypingEvent?)
    ensures s.kind == PrivateChat ==> (React(s, e).Fail? <==> !(e.PrivateMessageEvent? || e.TypingEvent?))
  {
  }


  /** The awaited side effects, in the order they happen. */
  datatype Effect =
    | JoinedGroup(group: GroupName, channel: ChannelName)
    | LeftGroup(group: GroupName, channel: ChannelName)
    | WrotePresence(key: string)
    | DeletedPresence(key: string)
    | AcceptedSocket(channel: ChannelName)
    | ClosedSocket(channel: ChannelName, code: int)
    | Published(group: GroupName, event: Event)
    | SentDirect(channel: ChannelName, frame: OutFrame)
    | SavedGlobal(global: GlobalMessage)
    | SavedPrivate(message: PrivateMessage)
    | StampedLastSeen(user: UserId)

  /** Registry, presence cache, consumer instances, socket outboxes, database, effect log. */
  datatype World = World(
    groups: map<GroupName, set<ChannelName>>,
    presence: Entries,
    sessions: map<ChannelName, Session>,
    outbox: map<ChannelName, seq<OutFrame>>,
    tables: Tables,
    trace: seq<Effect>)

  function Members(w: World, g: GroupName): set<ChannelName> {
    MembersOf(w.groups, g)
  }

  /** Every frame written so far to the socket of channel `c`. */
  function Outbox(w: World, c: ChannelName): seq<OutFrame> {
    if c in w.outbox then w.outbox[c] else []
  }

  // ---------------------------------------------------------------------
  // One function per awaited step
  // ---------------------------------------------------------------------

  /** `channel_layer.group_add(g, c)`. */
  function GroupAdd(w: World, g: GroupName, c: ChannelName): (r: World)
    ensures forall h :: Members(r, h) == Members(w, h) + (if h == g then {c} else {})
    ensures r.sessions == w.sessions && r.presence == w.presence
    ensures r.outbox == w.outbox && r.tables == w.tables
  {
    w.(groups := w.groups[g := Members(w, g) + {c}], trace := w.trace + [JoinedGroup(g, c)])
  }

  /** `channel_layer.group_discard(g, c)`. */
  function GroupDiscard(w: World, g: GroupName, c: ChannelName): (r: World)
    ensures forall h :: Members(r, h) == Members(w, h) - (if h == g then {c} else {})
    ensures r.sessions == w.sessions && r.presence == w.presence
    ensures r.outbox == w.outbox && r.tables == w.tables
  {
    w.(groups := w.groups[g := Members(w, g) - {c}], trace := w.trace + [LeftGroup(g, c)])
  }

  /** The consumers' `set_user_online`. */
  function WritePresence(w: World, id: UserId, now: int): (r: World)
    ensures r.groups == w.groups && r.sessions == w.sessions
    ensures r.outbox == w.outbox && r.tables == w.tables
  {
    w.(presence := MarkOnline(w.presence, id, now), trace := w.trace + [WrotePresence(PresenceKey(id))])
  }

  /** The consumers' `set_user_offline`. */
  function ErasePresence(w: World, id: UserId): (r: World)
    ensures r.groups == w.groups && r.sessions == w.sessions
    ensures r.outbox == w.outbox && r.tables == w.tables
  {
    w.(presence := MarkOffline(w.presence, id), trace := w.trace + [DeletedPresence(PresenceKey(id))])
  }

  /** The frames a member `c` of group `g` writes to its socket for event `e`. */
  function Delivery(w: World, g: GroupName, c: ChannelName, e: Event): seq<OutFrame> {
    if c in Members(w, g) && c in w.sessions && React(w.sessions[c], e).Forward?
    then [React(w.sessions[c], e).frame] else []
  }

  /** `channel_layer.group_send(g, e)`: every member's handler runs on `e`. */
  function GroupSend(w: World, g: GroupName, e: Event): (r: World)
    ensures forall c :: Outbox(r, c) == Outbox(w, c) + Delivery(w, g, c, e)
    ensures r.trace == w.trace + [Published(g, e)]
    ensures r.groups == w.groups && r.sessions == w.sessions
    ensures r.presence == w.presence && r.tables == w.tables
  {
    w.(outbox := map c | c in w.outbox.Keys + Members(w, g) :: Outbox(w, c) + Delivery(w, g, c, e),
       trace := w.trace + [Published(g, e)])
  }

  /** What a group send means for one channel: a channel outside the group
      is not written to; a member whose handler accepts the event gets
      exactly that one frame; a member without a handler for it gets nothing. */
  lemma GroupSendDelivers(w: World, g: GroupName, e: Event, c: ChannelName)
    ensures c !in Members(w, g) ==> Outbox(GroupSend(w, g, e), c) == Outbox(w, c)
    ensures c in Members(w, g) && c in w.sessions && React(w.sessions[c], e).Forward? ==>
      Outbox(GroupSend(w, g, e), c) == Outbox(w, c) + [React(w.sessions[c], e).frame]
    ensures c in Members(w, g) && c in w.sessions && !React(w.sessions[c], e).Forward? ==>
      Outbox(GroupSend(w, g, e), c) == Outbox(w, c)
  {
  }

  /** `self.send(...)` on the socket of channel `c`. */
  function SendDirect(w: World, c: ChannelName, f: OutFrame): (r: World)
    ensures forall x :: Outbox(r, x) == Outbox(w, x) + (if x == c then [f] else [])
    ensures r.groups == w.groups && r.sessions == w.sessions
    ensures r.presence == w.presence && r.tables == w.tables
  {
    w.(outbox := w.outbox[c := Outbox(w, c) + [f]], trace := w.trace + [SentDirect(c, f)])
  }

  /** `self.accept()`. */
  function AcceptSocket(w: World, c: ChannelName): (r: World)
    requires c in w.sessions
    ensures r.groups == w.groups && r.presence == w.presence
    ensures r.outbox == w.outbox && r.tables == w.tables
  {
    w.(sessions := w.sessions[c := w.sessions[c].(socket := Open)], trace := w.trace + [AcceptedSocket(c)])
  }

  /** `self.close(code=...)`. */
  function CloseSocket(w: World, c: ChannelName, code: int): (r: World)
    requires c in w.sessions
    ensures r.groups == w.groups && r.presence == w.presence
    ensures r.outbox == w.outbox && r.tables == w.tables
  {
    w.(sessions := w.sessions[c := w.sessions[c].(socket := Closed(code))], trace := w.trace + [ClosedSocket(c, code)])
  }

  /** `save_global_message`. */
  function SaveGlobal(w: World, m: GlobalMessage): (r: World)
    ensures r.groups == w.groups && r.sessions == w.sessions
    ensures r.presence == w.presence && r.outbox == w.outbox
  {
    w.(tables := InsertGlobal(w.tables, m), trace := w.trace + [SavedGlobal(m)])
  }

  /** The store half of `send_private_message`. */
  function SavePrivate(w: World, m: PrivateMessage, now: int): (r: World)
    ensures r.groups == w.groups && r.sessions == w.sessions
    ensures r.presence == w.presence && r.outbox == w.outbox
  {
    w.(tables := InsertPrivate(w.tables, m, now), trace := w.trace + [SavedPrivate(m)])
  }

  /** `update_user_last_seen`. */
  function StampSeen(w: World, id: UserId, now: int): (r: World)
    ensures r.groups == w.groups && r.sessions == w.sessions
    ensures r.presence == w.presence && r.outbox == w.outbox
  {
    w.(tables := StampLastSeen(w.tables, id, now), trace := w.trace + [StampedLastSeen(id)])
  }

  // ---------------------------------------------------------------------
  // The consumer entry points
  // ---------------------------------------------------------------------

  /** The authenticated path of `connect` for user `u` on channel `c`: join
      the group, mark the user online, accept, and in the global room
      announce the user. */
  function Admit(w: World, kind: ConsumerKind, c: ChannelName, u: User, now: int): (r: World)
    requires c in w.sessions
    ensures r.groups == w.groups[GroupOf(kind, u) := Members(w, GroupOf(kind, u)) + {c}]
    ensures r.sessions == w.sessions[c := w.sessions[c].(socket := Open)]
    ensures r.presence == MarkOnline(w.presence, u.id, now) && r.tables == w.tables
  {
    var w1 := GroupAdd(w, GroupOf(kind, u), c);
    var w2 := WritePresence(w1, u.id, now);
    var w3 := AcceptSocket(w2, c);
    if kind == GlobalChat then GroupSend(w3, GLOBAL_GROUP, PresenceEvent(u.id, Some(u.username), Online))
    else w3
  }

  /** `connect` of either consumer on a fresh channel `c`. */
  function ConnectSpec(w: World, kind: ConsumerKind, c: ChannelName, su: ScopeUser, now: int): World
    requires c !in w.sessions
  {
    var w0 := w.(sessions := w.sessions[c := Session(kind, su, Connecting)]);
    match su
    case Anonymous => CloseSocket(w0, c, CLOSE_UNAUTHENTICATED)
    case Authenticated(u) => Admit(w0, kind, c, u, now)
  }

  /** The authenticated path of `disconnect`: leave the group, erase the
      presence key, stamp `last_seen`, and in the global room announce it. */
  function Release(w: World, kind: ConsumerKind, c: ChannelName, u: User, now: int): (r: World)
    ensures r.groups == w.groups[GroupOf(kind, u) := Members(w, GroupOf(kind, u)) - {c}]
    ensures r.sessions == w.sessions
    ensures r.presence == MarkOffline(w.presence, u.id) && r.tables == StampLastSeen(w.tables, u.id, now)
  {
    var w1 := GroupDiscard(w, GroupOf(kind, u), c);
    var w2 := ErasePresence(w1, u.id);
    var w3 := StampSeen(w2, u.id, now);
    if kind == GlobalChat then GroupSend(w3, GLOBAL_GROUP, PresenceEvent(u.id, Some(u.username), Offline))
    else w3
  }

  /** `disconnect` of the consumer on channel `c`; the instance is then gone. */
  function DisconnectSpec(w: World, c: ChannelName, now: int): World
    requires c in w.sessions
  {
    var s := w.sessions[c];
    var w' := if s.scopeUser.Authenticated? then Release(w, s.kind, c, s.scopeUser.user, now) else w;
    w'.(sessions := w'.sessions - {c})
  }

  /** A text frame as `json.loads` sees it. */
  datatype Frame = Unparseable | Decoded(doc: Json)

  /** Whether `receive` returned normally or an exception escaped it. */
  datatype Outcome = Completed | Raised

  /** `data.get('content', '')` when it is a string; `None` when the
      following `.strip()` would raise `AttributeError`. */
  function ContentText(fields: map<string, Json>): Option<string> {
    if "content" !in fields then Some("")
    else if fields["content"].JString? then Some(fields["content"].s)
    else None
  }

  /** Strip, sanitise, then cut to `MESSAGE_MAX_LENGTH`. */
  function PublishedContent(raw: string, sanitize: string -> string): string {
    Truncate(sanitize(Strip(raw)), MESSAGE_MAX_LENGTH)
  }

  /** `Conversation.objects.get(id=v)`; a value that is not a string names
      no conversation. The id text is matched exactly. */
  function LookupConversation(t: Tables, v: Json): (r: Option<Conversation>)
    ensures r.Some? ==> r.value in t.conversations && v == JString(r.value.id)
    ensures v.JString? && (exists i :: 0 <= i < |t.conversations| && t.conversations[i].id == v.s) ==> r.Some?
  {
    if v.JString? then FindConversation(t.conversations, v.s) else None
  }

  /** `get_recipient_id`: the id of the newest participant other than `me`,
      when that id is truthy. The test on `""` mirrors `if recipient_id:`;
      a stored id is a UUID string and never empty, so it only matters for
      tables that hold an empty id. */
  function RecipientOf(users: seq<User>, conv: Conversation, me: UserId): Option<UserId> {
    var r := OtherParticipant(users, conv.participants, me);
    if r.Some? && r.value.id != "" then Some(r.value.id) else None
  }

  /** `GlobalChatConsumer.receive`; `newId` is the id the database assigns. */
  function ReceiveGlobalSpec(w: World, c: ChannelName, frame: Frame, now: int, newId: int,
                             sanitize: string -> string): (r: (World, Outcome))
    requires c in w.sessions && w.sessions[c].kind == GlobalChat
    ensures r.0.groups == w.groups && r.0.sessions == w.sessions && r.0.presence == w.presence
    ensures r.0.tables.messages == w.tables.messages && r.0.tables.conversations == w.tables.conversations
    ensures r.1 == Raised ==> r.0 == w
  {
    var s := w.sessions[c];
    if s.scopeUser.Anonymous? || frame.Unparseable? then (w, Completed)
    else if !frame.doc.JObject? then (w, Raised)
    else
      var fields := frame.doc.fields;
      if GetField(fields, "type") != JString("send_global_message") then (w, Completed)
      else
        var raw := ContentText(fields);
        if raw.None? then (w, Raised)
        else if Strip(raw.value) == "" then (w, Completed)
        else if FindUser(w.tables.users, s.scopeUser.user.id).None? then (w, Raised)
        else
          (BroadcastGlobal(w, s.scopeUser.user, PublishedContent(raw.value, sanitize), now, newId), Completed)
  }

  /** Store `text` from `u` as global message `newId`, then publish it to the global room. */
  function BroadcastGlobal(w: World, u: User, text: string, now: int, newId: int): (r: World)
    ensures r.groups == w.groups && r.sessions == w.sessions && r.presence == w.presence
    ensures r.tables == InsertGlobal(w.tables, GlobalMessage(newId, u.id, text, now))
  {
    var m := GlobalMessage(newId, u.id, text, now);
    var rec := GlobalRecord(newId, u.id, u.username, text, now);
    GroupSend(SaveGlobal(w, m), GroupOf(GlobalChat, u), GlobalMessageEvent(rec))
  }

  /** The `send_private_message` branch of `PrivateChatConsumer.receive`,
      for user `u`: the sender's row is fetched first, then the conversation. */
  function SendPrivateSpec(w: World, c: ChannelName, u: User, fields: map<string, Json>, now: int,
                           newId: MessageId, sanitize: string -> string): (r: (World, Outcome))
    ensures r.0.groups == w.groups && r.0.sessions == w.sessions && r.0.presence == w.presence
    ensures r.0.tables.globalMessages == w.tables.globalMessages
    ensures r.1 == Raised ==> r.0 == w
  {
    var cid := GetField(fields, "conversation_id");
    var raw := ContentText(fields);
    if raw.None? then (w, Raised)
    else if !Truthy(cid) || Strip(raw.value) == "" then (w, Completed)
    else
      var sender := FindUser(w.tables.users, u.id);
      var conv := LookupConversation(w.tables, cid);
      if sender.None? || conv.None? then (w, Raised)
      else (DeliverPrivate(w, c, sender.value, conv.value, PublishedContent(raw.value, sanitize), now, newId), Completed)
  }

  /** Store `text` from the row `u` in `conv` as message `newId`; then, when the
      conversation has another participant, publish it to that user's inbox
      and confirm it to the sending channel `c`. */
  function DeliverPrivate(w: World, c: ChannelName, u: User, conv: Conversation, text: string,
                          now: int, newId: MessageId): (r: World)
    ensures r.groups == w.groups && r.sessions == w.sessions && r.presence == w.presence
    ensures r.tables == InsertPrivate(w.tables, PrivateMessage(newId, conv.id, u.id, text, now, false), now)
  {
    var m := PrivateMessage(newId, conv.id, u.id, text, now, false);
    var rec := PrivateRecord(newId, conv.id, u.id, u.username, text, now);
    var w1 := SavePrivate(w, m, now);
    var r := RecipientOf(w.tables.users, conv, u.id);
    if r.None? then w1
    else SendDirect(GroupSend(w1, UserGroup(r.value), PrivateMessageEvent(rec)), c, PrivateMessageSentFrame(rec))
  }

  /** The `typing_start` / `typing_stop` branches, for user `u` naming conversation `cid`. */
  function TypingSpec(w: World, u: User, cid: Json, typing: TypingStatus): (r: World)
    ensures r.groups == w.groups && r.sessions == w.sessions
    ensures r.presence == w.presence && r.tables == w.tables
  {
    var conv := if Truthy(cid) then LookupConversation(w.tables, cid) else None;
    var r := if conv.Some? then RecipientOf(w.tables.users, conv.value, u.id) else None;
    if r.None? then w
    else GroupSend(w, UserGroup(r.value), TypingEvent(u.id, u.username, cid.s, typing))
  }

  /** `PrivateChatConsumer.receive`; `newId` is the UUID the new message row gets. */
  function ReceivePrivateSpec(w: World, c: ChannelName, frame: Frame, now: int, newId: MessageId,
                              sanitize: string -> string): (r: (World, Outcome))
    requires c in w.sessions && w.sessions[c].kind == PrivateChat
    ensures r.0.groups == w.groups && r.0.sessions == w.sessions && r.0.presence == w.presence
    ensures r.0.tables.globalMessages == w.tables.globalMessages
    ensures r.1 == Raised ==> r.0 == w
  {
    var s := w.sessions[c];
    if s.scopeUser.Anonymous? || frame.Unparseable? then (w, Completed)
    else if !frame.doc.JObject? then (w, Raised)
    else
      var fields := frame.doc.fields;
      var kind := GetField(fields, "type");
      var u := s.scopeUser.user;
      if kind == JString("send_private_message") then
        SendPrivateSpec(w, c, u, fields, now, newId, sanitize)
      else if kind == JString("typing_start") then
        (TypingSpec(w, u, GetField(fields, "conversation_id"), Typing), Completed)
      else if kind == JString("typing_stop") then
        (TypingSpec(w, u, GetField(fields, "conversation_id"), Stopped), Completed)
      else (w, Completed)
  }

  /** `async_set_user_online` / `async_set_user_offline` as written: the
      presence write, then an event without `username` to `global_chat`. */
  function AnnouncePresenceSpec(w: World, id: UserId, status: PresenceStatus, now: int): World {
    var w1 := if status == Online then WritePresence(w, id, now) else ErasePresence(w, id);
    GroupSend(w1, GLOBAL_GROUP, PresenceEvent(id, None, status))
  }

  /** The announcers as the `user_presence` handler expects them: the event
      carries the username, as the consumers' own announcements do. */
  function AnnouncePresenceCorrectedSpec(w: World, u: User, status: PresenceStatus, now: int): World {
    var w1 := if status == Online then WritePresence(w, u.id, now) else ErasePresence(w, u.id);
    GroupSend(w1, GLOBAL_GROUP, PresenceEvent(u.id, Some(u.username), status))
  }

  function MembersOf(groups: map<GroupName, set<ChannelName>>, g: GroupName): set<ChannelName> {
    if g in groups then groups[g] else {}
  }

  /** Registry and consumer instances agree: a channel is in a group exactly
      when its consumer is authenticated and that group is its `group_name`. */
  ghost predicate Agrees(groups: map<GroupName, set<ChannelName>>, sessions: map<ChannelName, Session>) {
    && (forall g, c :: c in MembersOf(groups, g) ==>
          c in sessions && sessions[c].scopeUser.Authenticated? &&
          g == GroupOf(sessions[c].kind, sessions[c].scopeUser.user))
    && (forall c :: c in sessions && sessions[c].scopeUser.Authenticated? ==>
          c in MembersOf(groups, GroupOf(sessions[c].kind, sessions[c].scopeUser.user)))
  }

  ghost predicate Wf(w: World) {
    Agrees(w.groups, w.sessions)
  }

  // ---------------------------------------------------------------------
  // The running system
  // ---------------------------------------------------------------------

  class Hub {
    var groups: map<GroupName, set<ChannelName>>
    var presence: Entries
    var sessions: map<ChannelName, Session>
    var outbox: map<ChannelName, seq<OutFrame>>
    var trace: seq<Effect>
    const db: ChatStore

    function State(): World
      reads this, db
    {
      World(groups, presence, sessions, outbox, db.Snapshot(), trace)
    }

    constructor (store: ChatStore)
      ensures db == store
      ensures State() == World(map[], map[], map[], map[], store.Snapshot(), [])
      ensures Wf(State())
    {
      groups, presence, sessions, outbox, trace := map[], map[], map[], map[], [];
      db := store;
    }

    method JoinGroup(g: GroupName, c: ChannelName)
      modifies this
      ensures State() == GroupAdd(old(State()), g, c)
    {
      groups := groups[g := (if g in groups then groups[g] else {}) + {c}];
      trace := trace + [JoinedGroup(g, c)];
    }

    method LeaveGroup(g: GroupName, c: ChannelName)
      modifies this
      ensures State() == GroupDiscard(old(State()), g, c)
    {
      groups := groups[g := (if g in groups then groups[g] else {}) - {c}];
      trace := trace + [LeftGroup(g, c)];
    }

    method Publish(g: GroupName, e: Event)
      modifies this
      ensures State() == GroupSend(old(State()), g, e)
    {
      outbox := GroupSend(State(), g, e).outbox;
      trace := trace + [Published(g, e)];
    }

    method Send(c: ChannelName, f: OutFrame)
      modifies this
      ensures State() == SendDirect(old(State()), c, f)
    {
      outbox := outbox[c := (if c in outbox then outbox[c] else []) + [f]];
      trace := trace + [SentDirect(c, f)];
    }

    method Accept(c: ChannelName)
      requires c in sessions
      modifies this
      ensures State() == AcceptSocket(old(State()), c)
    {
      sessions := sessions[c := sessions[c].(socket := Open)];
      trace := trace + [AcceptedSocket(c)];
    }

    method Close(c: ChannelName, code: int)
      requires c in sessions
      modifies this
      ensures State() == CloseSocket(old(State()), c, code)
    {
      sessions := sessions[c := sessions[c].(socket := Closed(code))];
      trace := trace + [ClosedSocket(c, code)];
    }

    method SetUserOnline(id: UserId, now: int)
      modifies this
      ensures State() == WritePresence(old(State()), id, now)
    {
      presence := Put(presence, PresenceKey(id), Flag(true), PRESENCE_EXPIRY, now);
      trace := trace + [WrotePresence(PresenceKey(id))];
    }

    method SetUserOffline(id: UserId)
      modifies this
      ensures State() == ErasePresence(old(State()), id)
    {
      presence := Delete(presence, PresenceKey(id));
      trace := trace + [DeletedPresence(PresenceKey(id))];
    }

    method UpdateUserLastSeen(id: UserId, now: int)
      modifies this, db
      ensures State() == StampSeen(old(State()), id, now)
    {
      db.UpdateLastSeen(id, now);
      trace := trace + [StampedLastSeen(id)];
    }

    method SaveGlobalMessage(id: int, sender: UserId, content: string, now: int)
      returns (m: GlobalMessage)
      modifies this, db
      ensures m == GlobalMessage(id, sender, content, now)
      ensures State() == SaveGlobal(old(State()), m)
    {
      m := db.CreateGlobalMessage(id, sender, content, now);
      trace := trace + [SavedGlobal(m)];
    }

    method SavePrivateMessage(id: MessageId, conversation: ConversationId, sender: UserId,
                              content: string, now: int)
      returns (m: PrivateMessage)
      modifies this, db
      ensures m == PrivateMessage(id, conversation, sender, content, now, false)
      ensures State() == SavePrivate(old(State()), m, now)
    {
      m := db.CreatePrivateMessage(id, conversation, sender, content, now);
      trace := trace + [SavedPrivate(m)];
    }

    /** `connect` of a `GlobalChatConsumer` or `PrivateChatConsumer` on channel `c`. */
    method Connect(kind: ConsumerKind, c: ChannelName, su: ScopeUser, now: int)
      requires c !in sessions
      modifies this
      ensures State() == ConnectSpec(old(State()), kind, c, su, now)
    {
      sessions := sessions[c := Session(kind, su, Connecting)];
      if su.Anonymous? {
        Close(c, CLOSE_UNAUTHENTICATED);
        return;
      }
      var user := su.user;
      var groupName := GroupOf(kind, user);
      JoinGroup(groupName, c);
      SetUserOnline(user.id, now);
      Accept(c);
      if kind == GlobalChat {
        Publish(groupName, PresenceEvent(user.id, Some(user.username), Online));
      }
    }

    /** `disconnect` of the consumer on channel `c`. */
    method Disconnect(c: ChannelName, now: int)
      requires c in sessions
      modifies this, db
      ensures State() == DisconnectSpec(old(State()), c, now)
    {
      var s := sessions[c];
      if s.scopeUser.Authenticated? {
        var user := s.scopeUser.user;
        var groupName := GroupOf(s.kind, user);
        LeaveGroup(groupName, c);
        SetUserOffline(user.id);
        UpdateUserLastSeen(user.id, now);
        if s.kind == GlobalChat {
          Publish(groupName, PresenceEvent(user.id, Some(user.username), Offline));
        }
      }
      sessions := sessions - {c};
    }

    /** `GlobalChatConsumer.receive`. */
    method ReceiveGlobal(c: ChannelName, frame: Frame, now: int, newId: int, sanitize: string -> string)
      returns (outcome: Outcome)
      requires c in sessions && sessions[c].kind == GlobalChat
      modifies this, db
      ensures (State(), outcome) == ReceiveGlobalSpec(old(State()), c, frame, now, newId, sanitize)
    {
      var s := sessions[c];
      if s.scopeUser.Anonymous? || frame.Unparseable? {
        return Completed;
      }
      if !frame.doc.JObject? {
        return Raised;
      }
      var fields := frame.doc.fields;
      if GetField(fields, "type") != JString("send_global_message") {
        return Completed;
      }
      var raw := ContentText(fields);
      if raw.None? {
        return Raised;
      }
      var content := Strip(raw.value);
      if content == "" {
        return Completed;
      }
      content := sanitize(content);
      if |content| > MESSAGE_MAX_LENGTH {
        content := content[..MESSAGE_MAX_LENGTH];
      }
      var user := s.scopeUser.user;
      if FindUser(db.users, user.id).None? {
        return Raised;
      }
      var m := SaveGlobalMessage(newId, user.id, content, now);
      Publish(GroupOf(GlobalChat, user), GlobalMessageEvent(GlobalRecord(m.id, user.id, user.username, content, m.timestamp)));
      outcome := Completed;
    }

    /** The `send_private_message` branch of `receive` for user `user`. */
    method SendPrivate(c: ChannelName, user: User, fields: map<string, Json>, now: int, newId: MessageId,
                       sanitize: string -> string)
      returns (outcome: Outcome)
      modifies this, db
      ensures (State(), outcome) == SendPrivateSpec(old(State()), c, user, fields, now, newId, sanitize)
    {
      var cid := GetField(fields, "conversation_id");
      var raw := ContentText(fields);
      if raw.None? {
        return Raised;
      }
      var content := Strip(raw.value);
      if !Truthy(cid) || content == "" {
        return Completed;
      }
      content := sanitize(content);
      if |content| > MESSAGE_MAX_LENGTH {
        content := content[..MESSAGE_MAX_LENGTH];
      }
      var sender := FindUser(db.users, user.id);
      if sender.None? {
        return Raised;
      }
      var conv := LookupConversation(db.Snapshot(), cid);
      if conv.None? {
        return Raised;
      }
      Deliver(c, sender.value, conv.value, content, now, newId);
      outcome := Completed;
    }

    /** `send_private_message`, then the recipient lookup, the publish to the
        recipient's inbox and the confirmation to the sender. */
    method Deliver(c: ChannelName, user: User, conv: Conversation, content: string, now: int, newId: MessageId)
      modifies this, db
      ensures State() == DeliverPrivate(old(State()), c, user, conv, content, now, newId)
    {
      var m := SavePrivateMessage(newId, conv.id, user.id, content, now);
      var rec := PrivateRecord(m.id, conv.id, user.id, user.username, content, m.timestamp);
      var recipient := RecipientOf(db.users, conv, user.id);
      if recipient.Some? {
        Publish(UserGroup(recipient.value), PrivateMessageEvent(rec));
        Send(c, PrivateMessageSentFrame(rec));
      }
    }

    /** The `typing_start` / `typing_stop` branches of `receive`. */
    method ForwardTyping(user: User, cid: Json, typing: TypingStatus)
      modifies this
      ensures State() == TypingSpec(old(State()), user, cid, typing)
    {
      if Truthy(cid) {
        var conv := LookupConversation(db.Snapshot(), cid);
        if conv.Some? {
          var recipient := RecipientOf(db.users, conv.value, user.id);
          if recipient.Some? {
            Publish(UserGroup(recipient.value), TypingEvent(user.id, user.username, cid.s, typing));
          }
        }
      }
    }

    /** `PrivateChatConsumer.receive`. */
    method ReceivePrivate(c: ChannelName, frame: Frame, now: int, newId: MessageId, sanitize: string -> string)
      returns (outcome: Outcome)
      requires c in sessions && sessions[c].kind == PrivateChat
      modifies this, db
      ensures (State(), outcome) == ReceivePrivateSpec(old(State()), c, frame, now, newId, sanitize)
    {
      var s := sessions[c];
      if s.scopeUser.Anonymous? || frame.Unparseable? {
        return Completed;
      }
      if !frame.doc.JObject? {
        return Raised;
      }
      var fields := frame.doc.fields;
      var kind := GetField(fields, "type");
      outcome := Completed;
      if kind == JString("send_private_message") {
        outcome := SendPrivate(c, s.scopeUser.user, fields, now, newId, sanitize);
      } else if kind == JString("typing_start") {
        ForwardTyping(s.scopeUser.user, GetField(fields, "conversation_id"), Typing);
      } else if kind == JString("typing_stop") {
        ForwardTyping(s.scopeUser.user, GetField(fields, "conversation_id"), Stopped);
      }
    }

    /** `async_set_user_online` (status `Online`) and `async_set_user_offline` (status `Offline`). */
    method AnnouncePresence(id: UserId, status: PresenceStatus, now: int)
      modifies this
      ensures State() == AnnouncePresenceSpec(old(State()), id, status, now)
    {
      if status == Online {
        SetUserOnline(id, now);
      } else {
        SetUserOffline(id);
      }
      Publish(GLOBAL_GROUP, PresenceEvent(id, None, status));
    }

    /** The announcers with the username in the event, as the global
        consumer's `user_presence` handler reads it. */
    method AnnounceUserPresence(u: User, status: PresenceStatus, now: int)
      modifies this
      ensures State() == AnnouncePresenceCorrectedSpec(old(State()), u, status, now)
    {
      if status == Online {
        SetUserOnline(u.id, now);
      } else {
        SetUserOffline(u.id);
      }
      Publish(GLOBAL_GROUP, PresenceEvent(u.id, Some(u.username), status));
    }
  }
}
